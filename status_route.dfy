/**
 * GET /api/status (app/api/status/route.ts): a placeholder that classifies
 * the `jobId` query parameter without looking anything up. An id containing
 * "-u" counts as known and PENDING, any other as not found.
 */
module StatusRoute {
  import opened Wrappers
  import opened JsText

  /** The JSON body; `outputNull` says whether it carries `"output": null`. */
  datatype Body = Body(ok: bool, error: Option<string>, status: Option<string>, outputNull: bool, jobId: Option<string>)

  datatype Response = Response(code: nat, body: Body)

  /** The marker the placeholder takes for a known job. */
  const KnownMarker := "-u"

  /** `GET`, given the `jobId` search parameter (`None` when absent). */
  function Get(jobId: Option<string>): (r: Response)
    ensures r.code in {200, 400, 404}
    ensures r.code == 200 <==> r.body.ok
    ensures r.body.ok <==> jobId.Some? && jobId.value != "" && OccursIn(KnownMarker, jobId.value)
    ensures r.code == 400 <==> jobId.None? || jobId.value == ""
    ensures r.body.ok ==> r.body.status == Some("PENDING") && r.body.outputNull && r.body.jobId == jobId
    ensures r.code == 404 ==> r.body.status == Some("NOT_FOUND") && r.body.outputNull && r.body.error == Some("Not found")
    ensures r.code == 400 ==> r.body.error == Some("Missing jobId") && r.body.status == None
  {
    if jobId.None? || jobId.value == "" then
      Response(400, Body(false, Some("Missing jobId"), None, false, None))
    else
      IncludesIffOccurs(jobId.value, KnownMarker);
      if !Includes(jobId.value, KnownMarker) then
        Response(404, Body(false, Some("Not found"), Some("NOT_FOUND"), true, None))
      else
        Response(200, Body(true, None, Some("PENDING"), true, jobId))
  }

  /**
   * The route only ever reports PENDING or NOT_FOUND: none of RUNNING,
   * COMPLETED or FAILED, though its `Status` type lists them.
   */
  lemma NeverReportsProgress(jobId: Option<string>)
    ensures Get(jobId).body.status in {None, Some("PENDING"), Some("NOT_FOUND")}
    ensures Get(jobId).body.status != Some("COMPLETED") && Get(jobId).body.status != Some("RUNNING")
    ensures Get(jobId).body.status != Some("FAILED")
  {
  }

  /** A concrete pair: "job-u1" is taken as pending, "ghost" as not found. */
  lemma ExampleIds()
    ensures Get(Some("job-u1")).code == 200 && Get(Some("ghost")).code == 404
  {
    assert "job-u1"[3..5] == KnownMarker;
    assert OccursAt(KnownMarker, "job-u1", 3);
    forall i | 0 <= i < 4 ensures !OccursAt(KnownMarker, "ghost", i) {
      assert "ghost"[i..i + 2][0] == "ghost"[i] != '-';
    }
  }
}
