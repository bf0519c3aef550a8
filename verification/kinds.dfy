/** The closed enumerations the admin views share. */
module Kinds {
  datatype PolicyType = Motor | Health

  datatype RiskLevel = High | Medium | Low
}
