/** The string constants of the connection registry and of the REST resources. */
module Constants {

  const CONNECTION_SERVER := "connection.openmrs.server"
  const CONNECTION_USERNAME := "connection.openmrs.username"
  const CONNECTION_PASSWORD := "connection.openmrs.password"

  const SEARCH_PATIENT_RESOURCE := "Search Patient Resource"
  const UUID_PATIENT_RESOURCE := "Uuid Patient Resource"
  const SEARCH_OBSERVATION_RESOURCE := "Search Observation Resource"
  const UUID_OBSERVATION_RESOURCE := "Uuid Observation Resource"
}
