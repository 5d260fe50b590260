/**
 * The older single-file client (x402_sdk.py): its constructor's base-URL
 * normalisation, the `create_client` factory and `handle_402`, which reads
 * a 402 response's amount and recipient headers.
 */
module LegacySdk {
  import opened Common
  import Text

  const DefaultBaseUrl := "https://api.x402agent.tech"
  const Not402Message := "Response is not a 402 Payment Required"
  const InvalidHeadersMessage := "Invalid 402 response headers"

  /** The dict `handle_402` returns. */
  datatype Legacy402 = Legacy402(amount: real, recipient: string)

  /**
   * `handle_402`: `status` is the response's status, `amount` the decoded
   * `X-402-Amount` header and `recipient` the `X-402-Recipient` header
   * (`None` when absent). A failure carries the `ValueError` message.
   */
  function Handle402(status: int, amount: Option<real>, recipient: Option<string>): (r: Result<Legacy402, string>)
    ensures status != 402 ==> r == Failure(Not402Message)
    ensures status == 402 ==> (r.Failure? <==> amount.GetOr(0.0) == 0.0 || !Truthy(recipient))
    ensures status == 402 && r.Failure? ==> r.error == InvalidHeadersMessage
    ensures r.Success? ==> r.value == Legacy402(amount.value, recipient.value) && r.value.amount != 0.0
  {
    if status != 402 then Failure(Not402Message)
    else
      var a := amount.GetOr(0.0);
      var rcp := recipient.GetOr("");
      if a == 0.0 || rcp == "" then Failure(InvalidHeadersMessage)
      else Success(Legacy402(a, rcp))
  }

  /** The legacy `X402Client`. */
  class LegacyClient {
    const apiKey: string
    const baseUrl: string
    const sessionHeaders: map<string, string>

    constructor(apiKey: string, baseUrl: string := DefaultBaseUrl)
      ensures this.apiKey == apiKey && this.baseUrl == Text.RStripSlash(baseUrl)
      ensures sessionHeaders == map["Authorization" := "Bearer " + apiKey, "Content-Type" := "application/json"]
    {
      this.apiKey := apiKey;
      this.baseUrl := Text.RStripSlash(baseUrl);
      sessionHeaders := map["Authorization" := "Bearer " + apiKey, "Content-Type" := "application/json"];
    }
  }

  /** `create_client`: `base_url or` the default. */
  method CreateClient(apiKey: string, baseUrl: Option<string>) returns (c: LegacyClient)
    ensures fresh(c)
    ensures c.baseUrl == Text.RStripSlash(if Truthy(baseUrl) then baseUrl.value else DefaultBaseUrl)
  {
    c := new LegacyClient(apiKey, if Truthy(baseUrl) then baseUrl.value else DefaultBaseUrl);
  }
}
