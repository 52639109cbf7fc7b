/** How the dialog reads the edge function's responses. The client library's
    `functions.invoke` reports a non-2xx status as an error and otherwise hands
    over the JSON body; that library is not part of this model, so this
    behaviour is stated here as the bridge between the two sides. */
module ClientServer {
  import opened Wrappers
  import opened Json
  import EM = ExtractMedication
  import SD = ScanDialog

  function Invoke(response: EM.Response): (r: SD.InvokeResult)
    ensures r.InvokeData? ==> 200 <= response.status < 300
  {
    if 200 <= response.status < 300 && response.body.JsonBody? then SD.InvokeData(response.body.value)
    else SD.InvokeError
  }

  /** Every 200 the function sends passes the dialog's `success && medication`
      test; the dialog then holds the parsed completion unchanged in both
      `formData` and `extractedData`, and its name already passes the save
      guard's name check. */
  lemma SuccessFillsForm(req: EM.Request, env: EM.Env, upstream: Thrown<EM.Upstream>,
                         parse: Option<Json> -> Option<Json>, s: SD.State)
    requires req.verb != "OPTIONS"
    requires EM.Handle(req, env, upstream, parse).response.status == 200
    ensures var response := EM.Handle(req, env, upstream, parse).response;
      && response.body.JsonBody?
      && var medication := response.body.value.fields["medication"];
      && SD.Accepted(Invoke(response)) == Some(medication)
      && var t := SD.Next(s, SD.Extracted(Invoke(response))).state;
      && t.form == SD.FormOf(medication)
      && t.extracted == Some(t.form)
      && Truthy(t.form.name)
  {
    EM.SuccessIsPassThrough(req, env, upstream, parse);
  }

  /** Every other response leaves the dialog exactly as it was. */
  lemma FailureKeepsDialog(req: EM.Request, env: EM.Env, upstream: Thrown<EM.Upstream>,
                           parse: Option<Json> -> Option<Json>, s: SD.State)
    requires EM.Handle(req, env, upstream, parse).response.status != 200
    ensures SD.Next(s, SD.Extracted(Invoke(EM.Handle(req, env, upstream, parse).response))) == SD.Step(s, None)
  {
  }
}
