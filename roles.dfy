/** The roles of the system: an administrator and the three kinds of
    practitioner the guides, checklists and posts are written for. */
module Roles {
  const All: set<string> := {"admin", "designer", "developer", "tester"}

  /** The roles a post or a checklist belongs to. */
  const NonAdmin: set<string> := {"designer", "developer", "tester"}
}
