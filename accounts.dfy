/** The signed-in user as the plant and forum dialogs receive it: an optional `userId` prop. */
module Accounts {
  import opened Wrappers

  /** `!userId` is false: an id is present and not empty. */
  predicate SignedIn(userId: Option<string>) {
    userId.Some? && userId.value != ""
  }
}
