/**
 * GET /webhook: the subscription handshake. The platform proves that it
 * knows the configured verify token and asks the relay to echo a challenge.
 */
module Handshake {
  import opened Wrappers
  import opened Server

  /** The only `hub.mode` that is answered. */
  const SubscribeMode := "subscribe"

  /**
   * Answers one handshake. Each query parameter is `None` when the request
   * does not carry it. The challenge comes back unchanged, with status 200,
   * exactly when the mode is "subscribe" and the token is the configured
   * one; every other request is refused with 403 "Forbidden".
   */
  function Verify(cfg: Config, mode: Option<string>, token: Option<string>, challenge: Option<string>): (r: Response)
    ensures r.status == 200 <==> mode == Some(SubscribeMode) && token == Some(cfg.verifyToken)
    ensures r.status == 200 ==> r.body == challenge
    ensures r.status != 200 ==> r.status == 403 && r.body == Some("Forbidden")
  {
    if mode == Some(SubscribeMode) && token == Some(cfg.verifyToken) then
      Response(200, challenge)
    else
      Forbidden
  }

  /**
   * A refused handshake does not depend on the challenge at all: whatever
   * challenge is sent, the same 403 "Forbidden" comes back, so a caller
   * without the token learns nothing from the reply.
   */
  lemma RefusalIgnoresChallenge(cfg: Config, mode: Option<string>, token: Option<string>, c1: Option<string>, c2: Option<string>)
    requires Verify(cfg, mode, token, c1).status != 200
    ensures Verify(cfg, mode, token, c2) == Verify(cfg, mode, token, c1) == Forbidden
  {
  }

  /** Without the configured token no mode, and no challenge, is ever echoed. */
  lemma WrongTokenNeverEchoes(cfg: Config, mode: Option<string>, token: Option<string>, challenge: Option<string>)
    requires token != Some(cfg.verifyToken)
    ensures Verify(cfg, mode, token, challenge) == Forbidden
  {
  }
}
