/** The records shared by the vault repository, the forms and the mock user
    database. Timestamps are integer milliseconds since the epoch. */
module Types {
  import opened Prelude

  /** The browser `File` a media item holds between selection and upload; only
      its identity matters here. */
  datatype FileRef = FileRef(name: string)

  /** The only media type the application knows, `'image'`. */
  datatype MediaKind = Image

  /** A photo attached to a vault. `file` is present only until the photo has been
      turned into a durable URL. */
  datatype MediaItem = MediaItem(id: string, kind: MediaKind, url: string, file: Option<FileRef>)

  /** A stored vault. `isLocked` is recomputed from `unlockDate` on every read. */
  datatype TimeVault = TimeVault(
    id: string,
    title: string,
    description: string,
    media: seq<MediaItem>,
    unlockDate: int,
    isLocked: bool)

  /** What the create form hands to the repository. */
  datatype TimeVaultData = TimeVaultData(
    title: string,
    description: string,
    unlockDate: int,
    media: seq<MediaItem>)

  /** A row of the mock user database, password included. */
  datatype User = User(
    id: string,
    email: string,
    phone: string,
    password: string,
    profilePhotoUrl: Option<string>,
    phoneVerified: bool)

  /** A user as the client sees it: every field of `User` except the password. */
  datatype AuthUser = AuthUser(
    id: string,
    email: string,
    phone: string,
    profilePhotoUrl: Option<string>,
    phoneVerified: bool)

  /** No media item still holds a raw file: every locator is a durable URL. */
  predicate NoPendingUploads(media: seq<MediaItem>)
  {
    forall k :: 0 <= k < |media| ==> media[k].file.None?
  }
}
