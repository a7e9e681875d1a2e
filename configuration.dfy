/**
 * The monitor's configuration (app/configuration/configuration.go), taken as
 * already loaded: the file lookup and JSON decoding are not modelled.
 */
module Configuration {
  datatype Configuration = Configuration(
    appName: string,
    downloadThreshold: real,  // Mbit/s
    interval: int,            // seconds between polls
    loggingLevel: string,
    uploadThreshold: real,    // Mbit/s
    serverMode: bool,
    slackEndpoint: string)    // "" when no Slack channel is configured
}
