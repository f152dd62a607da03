/** What a gateway refuses to exceed. */
module Limits {
  const MAX_INSTRUCTIONS: nat := 5
  const MAX_ACTIVE_ROUTES_PER_SECTION: nat := 3
}
