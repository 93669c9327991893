/**
 * The documents the tool handles and the requests it sends to the résumé
 * service: `GET https://txtcv.com` for `auth check` and
 * `PATCH https://txtcv.com/api/cv/{cv_id}` with body `{"contents": document}`
 * for `publish`, both with an `Authorization: Bearer <token>` header.
 */
module Api {
  import opened Wrappers

  /** A parsed JSON value (`serde_json::Value`); numbers are abstract, identified by a text of their own. */
  datatype Json =
    | Null
    | Bool(b: bool)
    | Number(literal: string)
    | String(s: string)
    | Array(items: seq<Json>)
    | Object(members: seq<(string, Json)>)

  datatype Verb = Get | Patch

  /** One outbound request: verb, URL, `Authorization` header value and JSON body, if any. */
  datatype Request = Request(verb: Verb, url: string, authorization: string, body: Option<Json>)

  const ServiceUrl: string := "https://txtcv.com"

  /** The URL of the résumé with the given identifier. */
  function CvUrl(cvId: string): string
  {
    ServiceUrl + "/api/cv/" + cvId
  }

  /** The value of the `Authorization` header for a token. */
  function Bearer(token: string): string
  {
    "Bearer " + token
  }

  /** `PatchRequest { contents }` as serialised by serde: one field named `contents`. */
  function PatchBody(document: Json): Json
  {
    Object([("contents", document)])
  }

  /** The request of `auth check`, sent without a body. */
  function CheckRequest(token: string): Request
  {
    Request(Get, ServiceUrl, Bearer(token), None)
  }

  /** The request of `publish`. */
  function PublishRequest(cvId: string, token: string, document: Json): Request
  {
    Request(Patch, CvUrl(cvId), Bearer(token), Some(PatchBody(document)))
  }

  /** The token is the part of an `Authorization` value that follows the `Bearer ` prefix. */
  lemma BearerCarriesToken(token: string)
    ensures |Bearer(token)| == 7 + |token|
    ensures Bearer(token)[..7] == "Bearer " && Bearer(token)[7..] == token
  {
  }

  /**
   * A publish request determines the résumé, the token and the document it
   * was built from, so every publish of different contents or under a
   * different identity sends a different request.
   */
  lemma {:induction false} PublishRequestInjective(cvId: string, token: string, document: Json,
                                                   cvId': string, token': string, document': Json)
    requires PublishRequest(cvId, token, document) == PublishRequest(cvId', token', document')
    ensures cvId == cvId' && token == token' && document == document'
  {
    BearerCarriesToken(token);
    BearerCarriesToken(token');
    assert cvId == CvUrl(cvId)[|ServiceUrl + "/api/cv/"|..];
    assert cvId' == CvUrl(cvId')[|ServiceUrl + "/api/cv/"|..];
  }
}
