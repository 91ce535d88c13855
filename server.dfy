/**
 * What every handler of the relay shares: the configuration read once at
 * start-up, and the shape of an HTTP response.
 */
module Server {
  import opened Wrappers

  /**
   * The four settings the handlers use, read from the environment when the
   * relay starts.
   * They never change afterwards; every handler receives them explicitly.
   */
  datatype Config = Config(
    verifyToken: string,
    appSecret: string,
    zapierWebhookUrl: string,
    accessToken: string)

  /** A response as a handler sends it: a status code and, when one is sent, a body. */
  datatype Response = Response(status: nat, body: Option<string>)

  /** The rejection both webhook handlers send. */
  const Forbidden := Response(403, Some("Forbidden"))

  /** The acknowledgement of a notification whose signature was valid. */
  const Acknowledged := Response(200, Some("OK"))
}
