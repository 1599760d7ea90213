/**
 * The policy service: a request is refused (HTTP 403) exactly when its query, lower-cased,
 * contains the word "forbidden"; otherwise the reply is `{allowed: true}`.
 */
module Policy {
  import opened Wrappers
  import opened Text

  const ForbiddenTerm: string := "forbidden"

  datatype PolicyRequest = PolicyRequest(requestId: string, query: string, traceId: Option<string>)

  /** `Allowed` is the 200 reply `{allowed: true}`; `Denied` is the raised HTTP error. */
  datatype Decision = Allowed | Denied(code: int, detail: string)

  function Decide(req: PolicyRequest): (d: Decision)
    ensures d.Denied? <==> exists i :: 0 <= i <= |req.query| && ForbiddenTerm <= Lower(req.query)[i..]
    ensures d.Denied? ==> d.code == 403
    ensures !d.Denied? ==> d == Allowed
  {
    var q := req.query;
    ContainsAt(Lower(q), ForbiddenTerm);
    if Contains(Lower(q), ForbiddenTerm) then
      Denied(403, "Policy: query contains forbidden term")
    else
      Allowed
  }

  /** Changing the case of ASCII letters in the query does not change the decision. */
  lemma CaseInsensitive(req: PolicyRequest, query: string)
    requires |query| == |req.query|
    requires forall k :: 0 <= k < |query| ==> LowerChar(query[k]) == LowerChar(req.query[k])
    ensures Decide(req.(query := query)) == Decide(req)
  {
    assert Lower(query) == Lower(req.query);
  }

  /** The empty query is allowed. */
  lemma EmptyQueryAllowed(req: PolicyRequest)
    requires req.query == ""
    ensures Decide(req) == Allowed
  {
  }

  /** A denied query stays denied whatever text is put before or after it. */
  lemma DeniedUnderExtension(req: PolicyRequest, before: string, after: string)
    requires Decide(req).Denied?
    ensures Decide(req.(query := before + req.query + after)).Denied?
  {
    var q := req.query;
    LowerConcat(before, q);
    LowerConcat(before + q, after);
    ContainsAt(Lower(q), ForbiddenTerm);
    ContainsInfix(Lower(before), Lower(q), Lower(after), ForbiddenTerm);
    ContainsAt(Lower(before + q + after), ForbiddenTerm);
  }
}
