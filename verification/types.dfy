/** The error taxonomy of the client. */
module Errors {
  datatype HelmError =
    | /** The `helm` executable could not be started; carries the I/O error text. */
      HelmNotInstalled(ioError: string)
    | /** `helm version` printed text without the word "version"; carries that text. */
      HelmVersionNotFound(output: string)
    | /** stderr of a read operation reported that the cluster is unreachable. */
      FailedToConnect
    | /** helm's output bytes are not valid UTF-8. */
      Utf8Error
    | /** stdout did not decode as the expected JSON; carries the decoder's message. */
      Serde(message: string)
}

/** A search-result record: a chart in a repository. */
module Charts {
  datatype Chart = Chart(name: string, version: string)
}

/** A listing-result record: a release installed in the cluster. */
module InstalledCharts {
  datatype InstalledChart = InstalledChart(
    name: string,
    appVersion: string,
    revision: string,
    updated: string,
    status: string,
    chart: string)
}
