/**
 * The user record shared between the mobile client and the services
 * (shared/src/types/index.ts). The auth slice treats it as an opaque payload:
 * it stores and replaces it but never looks inside.
 */
module SharedTypes {
  import opened Wrappers

  /**
   * A user profile. Dates are instants in milliseconds; the optional
   * geographic location is not part of this model.
   */
  datatype User = User(
    id: string,
    email: string,
    username: string,
    displayName: string,
    avatar: Option<string>,
    isVerified: bool,
    createdAt: int,
    updatedAt: int)
}
