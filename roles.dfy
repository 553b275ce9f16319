/** The user-role identifiers shared by the application and the grid
    handlers. The numeric values are those of the `ROLE_ID_*` constants,
    whose defining file is not part of this model. */
module Roles {
  const SiteAdmin: int := 0x1
  const Manager: int := 0x10
  const SubEditor: int := 0x11
  const Reviewer: int := 0x1000
  const Assistant: int := 0x1001
  const Author: int := 0x10000
  const Reader: int := 0x100000

  predicate IsRole(r: int) {
    r == SiteAdmin || r == Manager || r == SubEditor || r == Reviewer
    || r == Assistant || r == Author || r == Reader
  }
}
