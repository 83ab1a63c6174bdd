/** The record the database port returns from a health check. */
module Ports {

  /** Whether a connection is open, with a human-readable description. */
  datatype DatabaseHealth = DatabaseHealth(connected: bool, message: string)
}
