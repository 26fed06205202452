/**
 * The job-listing handler: it checks the request method and its three
 * settings, asks the CRM's custom-object search for one page of records,
 * passes an upstream failure through, keeps the records that may be shown on
 * the website and turns each into a small display object. The network call
 * is an input (`Upstream`); the handler is a function from the request
 * method, the settings and that outcome to the response it writes.
 */
module Jobs {
  import opened Wrappers
  import opened JsValue

  const DefaultObjectName := "custom_objects.jobs"
  const HiddenTag := "dont_post_to_website"
  const SearchPage := 1
  const SearchPageLimit := 12

  /** The three environment settings: API key, location id and object name, each unset or a string. */
  datatype Env = Env(apiKey: Option<string>, locationId: Option<string>, objectName: Option<string>)

  /** How the upstream search ended. */
  datatype Upstream =
      /** it answered with a status that is not ok; its body read as text */
    | Failed(status: int, text: string)
      /** it answered ok; its body parsed as JSON */
    | Answered(data: Value)
      /** the call, or reading its body, raised an exception */
    | Threw

  /** The status and the JSON body the handler writes. */
  datatype Response = Response(status: int, body: Value)

  /** The record search the handler sends: the object it names, the bearer key and the JSON body's fields. */
  datatype SearchRequest = SearchRequest(objectName: string, apiKey: string, locationId: string, page: int, pageLimit: int)

  /** The handler either answers without calling upstream, or sends a search first. */
  datatype Step = Respond(response: Response) | Search(request: SearchRequest)

  /** The display object built from one record; a field holds whatever value the record supplied. */
  datatype Job = Job(id: Value, title: Value, city: Value, date: Value, amount: Value, description: Value, heroImage: Value)

  /** `!!process.env.X`: set to a non-empty string. */
  predicate IsSet(setting: Option<string>) {
    setting.Some? && setting.value != ""
  }

  /** `process.env.GHL_JOBS_OBJECT_NAME || "custom_objects.jobs"` */
  function ObjectName(env: Env): (name: string)
    ensures name != ""
    ensures IsSet(env.objectName) ==> name == env.objectName.value
    ensures !IsSet(env.objectName) ==> name == DefaultObjectName
  {
    if IsSet(env.objectName) then env.objectName.value else DefaultObjectName
  }

  function ErrorBody(message: string): Value {
    Obj(map["error" := Str(message)])
  }

  function ConfigErrorBody(hasApiKey: bool, hasLocationId: bool, hasObjectName: bool): Value {
    Obj(map[
      "error" := Str("API not configured"),
      "missing" := Obj(map[
        "hasApiKey" := Bool(hasApiKey),
        "hasLocationId" := Bool(hasLocationId),
        "hasJobsObjectName" := Bool(hasObjectName)])])
  }

  /**
   * The handler up to the upstream call. Any method but GET is refused before
   * the settings are read; a missing API key or location id is reported with
   * a flag for each setting; otherwise the search for the first page of 12
   * records is sent.
   */
  function Prepare(httpMethod: string, env: Env): (s: Step)
    ensures httpMethod != "GET" ==> s == Respond(Response(405, ErrorBody("Method not allowed")))
    ensures httpMethod == "GET" ==> (s.Search? <==> IsSet(env.apiKey) && IsSet(env.locationId))
    ensures httpMethod == "GET" && s.Respond? ==>
      s.response == Response(500, ConfigErrorBody(IsSet(env.apiKey), IsSet(env.locationId), true))
    ensures s.Search? ==>
      && s.request.objectName == ObjectName(env)
      && s.request.apiKey == env.apiKey.value
      && s.request.locationId == env.locationId.value
      && s.request.page == 1 && s.request.pageLimit == 12
  {
    if httpMethod != "GET" then Respond(Response(405, ErrorBody("Method not allowed")))
    else
      var name := ObjectName(env);
      if !IsSet(env.apiKey) || !IsSet(env.locationId) || name == "" then
        Respond(Response(500, ConfigErrorBody(IsSet(env.apiKey), IsSet(env.locationId), name != "")))
      else
        Search(SearchRequest(name, env.apiKey.value, env.locationId.value, SearchPage, SearchPageLimit))
  }

  /**
   * `data.records || data.data || []`, followed by a call of `.filter` on it;
   * None stands for the TypeError when `data` is null or the chosen envelope
   * is not an array.
   */
  function RawRecords(data: Value): (r: Option<seq<Value>>)
    ensures IsNullish(data) ==> r.None?
    ensures !IsNullish(data) && Get(data, "records").Arr? ==> r == Some(Get(data, "records").items)
    ensures !IsNullish(data) && !Truthy(Get(data, "records")) && Get(data, "data").Arr?
      ==> r == Some(Get(data, "data").items)
    ensures !IsNullish(data) && !Truthy(Get(data, "records")) && !Truthy(Get(data, "data")) ==> r == Some([])
    ensures r.None? <==>
      || IsNullish(data)
      || (Truthy(Get(data, "records")) && !Get(data, "records").Arr?)
      || (!Truthy(Get(data, "records")) && Truthy(Get(data, "data")) && !Get(data, "data").Arr?)
  {
    match Read(data, "records")
    case None => None
    case Some(records) =>
      var envelope := Or(Or(records, Get(data, "data")), Arr([]));
      if envelope.Arr? then Some(envelope.items) else None
  }

  /** `record.properties || {}` */
  function Props(record: Value): (p: Value)
    requires !IsNullish(record)
    ensures Truthy(p) && !IsNullish(p)
    ensures p == if Truthy(Get(record, "properties")) then Get(record, "properties") else Obj(map[])
  {
    Or(Get(record, "properties"), Obj(map[]))
  }

  /**
   * The visibility test: a flag that is a non-empty array holding
   * "dont_post_to_website" hides the record; any other flag, an empty one or
   * none at all, shows it. The length test is redundant: an array that holds
   * the tag is never empty.
   */
  function Keep(record: Value): (keep: bool)
    requires !IsNullish(record)
    ensures !keep <==>
      var flag := Get(Props(record), "show_on_website");
      flag.Arr? && Str(HiddenTag) in flag.items
  {
    var flags := Or(Get(Props(record), "show_on_website"), Arr([]));
    if flags.Arr? && |flags.items| > 0 then Str(HiddenTag) !in flags.items else true
  }

  /**
   * `records.filter(keep)`; None stands for the TypeError raised by a null
   * record. The survivors are the records the test keeps.
   */
  function Filter(records: seq<Value>): (r: Option<seq<Value>>)
    ensures r.None? <==> exists i :: 0 <= i < |records| && IsNullish(records[i])
    ensures r.Some? ==> |r.value| <= |records|
    ensures r.Some? ==> forall x :: x in r.value ==> !IsNullish(x) && Keep(x)
  {
    if records == [] then Some([])
    else
      match Read(records[0], "properties")
      case None => None
      case Some(_) =>
        match Filter(records[1..])
        case None =>
          assert IsNullish(records[1..][0]) || exists i :: 1 <= i < |records[1..]| && IsNullish(records[1..][i]);
          None
        case Some(rest) => Some(if Keep(records[0]) then [records[0]] + rest else rest)
  }

  /** Every position moved one place right. */
  function Shift(idx: seq<nat>): (r: seq<nat>)
    ensures |r| == |idx| && forall k :: 0 <= k < |idx| ==> r[k] == idx[k] + 1
  {
    seq(|idx|, k requires 0 <= k < |idx| => idx[k] + 1)
  }

  /**
   * The positions of the records the test keeps, in increasing order: every
   * kept record's position is listed and no other.
   */
  function KeptIndices(records: seq<Value>): (idx: seq<nat>)
    requires forall i :: 0 <= i < |records| ==> !IsNullish(records[i])
    ensures forall k :: 0 <= k < |idx| ==> idx[k] < |records|
    ensures forall j, k :: 0 <= j < k < |idx| ==> idx[j] < idx[k]
    ensures forall i :: 0 <= i < |records| ==> (i in idx <==> Keep(records[i]))
  {
    if records == [] then []
    else
      var rest := KeptIndices(records[1..]);
      var shifted := Shift(rest);
      ShiftedMembers(rest, shifted);
      assert forall i :: 1 <= i < |records| ==> records[1..][i - 1] == records[i];
      if Keep(records[0]) then [0] + shifted else shifted
  }

  lemma ShiftedMembers(rest: seq<nat>, shifted: seq<nat>)
    requires |shifted| == |rest|
    requires forall k :: 0 <= k < |rest| ==> shifted[k] == rest[k] + 1
    ensures forall i: nat :: i in shifted <==> i > 0 && i - 1 in rest
  {
  }

  /** The records at the given positions, in the order the positions are listed. */
  function Select(records: seq<Value>, idx: seq<nat>): seq<Value>
    requires forall k :: 0 <= k < |idx| ==> idx[k] < |records|
  {
    seq(|idx|, k requires 0 <= k < |idx| => records[idx[k]])
  }

  lemma SelectShifted(records: seq<Value>, rest: seq<nat>)
    requires records != []
    requires forall k :: 0 <= k < |rest| ==> rest[k] < |records| - 1
    ensures Select(records, Shift(rest)) == Select(records[1..], rest)
    ensures Select(records, [0] + Shift(rest)) == [records[0]] + Select(records[1..], rest)
  {
  }

  /** The filter keeps exactly the records the test keeps, in their original order. */
  lemma {:induction false} FilterKeepsInOrder(records: seq<Value>)
    requires forall i :: 0 <= i < |records| ==> !IsNullish(records[i])
    ensures Filter(records) == Some(Select(records, KeptIndices(records)))
  {
    if records != [] {
      var tail := records[1..];
      assert forall i :: 0 <= i < |tail| ==> tail[i] == records[i + 1];
      FilterKeepsInOrder(tail);
      var rest := KeptIndices(tail);
      SelectShifted(records, rest);
      assert Read(records[0], "properties").Some?;
      if Keep(records[0]) {
        assert KeptIndices(records) == [0] + Shift(rest);
        assert Filter(records) == Some([records[0]] + Select(tail, rest));
      } else {
        assert KeptIndices(records) == Shift(rest);
        assert Filter(records) == Some(Select(tail, rest));
      }
    } else {
      assert Select(records, KeptIndices(records)) == [];
    }
  }

  /** `p[key] || ""` */
  function Text(p: Value, key: string): Value
    requires !IsNullish(p)
  {
    Or(Get(p, key), Str(""))
  }

  /**
   * The amount: null when `job_amount` is falsy (0 and "" included); the
   * `value` of an object whose `value` is neither null nor undefined;
   * otherwise `job_amount` itself, so an object without a usable `value`
   * passes through unchanged.
   */
  function Amount(jobAmount: Value): (amount: Value)
    ensures amount.Null? <==> !Truthy(jobAmount)
    ensures !amount.Undefined?
    ensures jobAmount.Obj? && "value" in jobAmount.fields && !IsNullish(jobAmount.fields["value"])
      ==> amount == jobAmount.fields["value"]
    ensures Truthy(jobAmount) && !(jobAmount.Obj? && "value" in jobAmount.fields && !IsNullish(jobAmount.fields["value"]))
      ==> amount == jobAmount
  {
    if Truthy(jobAmount) then
      if IsObjectType(jobAmount) && !IsNullish(Get(jobAmount, "value")) then Get(jobAmount, "value")
      else jobAmount
    else Null
  }

  /**
   * The display object for one kept record: its `id` verbatim, each text
   * field the record's property when that is truthy and "" otherwise.
   */
  function Normalize(record: Value): (job: Job)
    requires !IsNullish(record)
    ensures job.id == Get(record, "id")
    ensures job.amount == Amount(Get(Props(record), "job_amount"))
    ensures forall field :: field in [job.title, job.city, job.date, job.description, job.heroImage] ==>
              (Truthy(field) || field == Str(""))
    ensures job.title == if Truthy(Get(Props(record), "job_title")) then Get(Props(record), "job_title") else Str("")
    ensures job.city == if Truthy(Get(Props(record), "city")) then Get(Props(record), "city") else Str("")
    ensures job.date == if Truthy(Get(Props(record), "job_date")) then Get(Props(record), "job_date") else Str("")
    ensures job.description == if Truthy(Get(Props(record), "job_description")) then Get(Props(record), "job_description") else Str("")
    ensures job.heroImage == if Truthy(Get(Props(record), "hero_image_url")) then Get(Props(record), "hero_image_url") else Str("")
  {
    var p := Props(record);
    Job(Get(record, "id"), Text(p, "job_title"), Text(p, "city"), Text(p, "job_date"),
        Amount(Get(p, "job_amount")), Text(p, "job_description"), Text(p, "hero_image_url"))
  }

  /** The JavaScript object the handler builds for one job. */
  function JobValue(job: Job): Value {
    Obj(map[
      "id" := job.id,
      "title" := job.title,
      "city" := job.city,
      "date" := job.date,
      "amount" := job.amount,
      "description" := job.description,
      "heroImage" := job.heroImage])
  }

  /** `kept.map(normalize)` */
  function ListJobs(kept: seq<Value>): (jobs: seq<Value>)
    requires forall x :: x in kept ==> !IsNullish(x)
    ensures |jobs| == |kept|
    ensures forall k :: 0 <= k < |kept| ==>
      && jobs[k].Obj?
      && jobs[k].fields.Keys == {"id", "title", "city", "date", "amount", "description", "heroImage"}
      && jobs[k].fields["id"] == Get(kept[k], "id")
      && jobs[k].fields["amount"] == Amount(Get(Props(kept[k]), "job_amount"))
  {
    seq(|kept|, k requires 0 <= k < |kept| => JobValue(Normalize(kept[k])))
  }

  const FetchFailed := "Unable to fetch jobs"

  /** The body of a passed-through upstream failure. */
  function UpstreamErrorBody(status: int, text: string): Value {
    Obj(map["error" := Str("Error from GHL API"), "status" := Num(status as real), "body" := Str(text)])
  }

  /**
   * The handler after the search was sent. An upstream failure keeps its
   * status and its body text; an exception, a null body, an envelope that is
   * not an array or a null record gives 500; otherwise the jobs are listed.
   */
  function Finish(upstream: Upstream): (r: Response)
    ensures upstream.Failed? ==> r.status == upstream.status && r.body == UpstreamErrorBody(upstream.status, upstream.text)
    ensures upstream.Threw? ==> r == Response(500, ErrorBody(FetchFailed))
    ensures upstream.Answered? ==>
      (r.status == 200 <==> RawRecords(upstream.data).Some? && forall x :: x in RawRecords(upstream.data).value ==> !IsNullish(x))
    ensures upstream.Answered? && r.status != 200 ==> r == Response(500, ErrorBody(FetchFailed))
  {
    match upstream
    case Threw => Response(500, ErrorBody(FetchFailed))
    case Failed(status, text) => Response(status, UpstreamErrorBody(status, text))
    case Answered(data) =>
      match RawRecords(data)
      case None => Response(500, ErrorBody(FetchFailed))
      case Some(records) =>
        match Filter(records)
        case None => Response(500, ErrorBody(FetchFailed))
        case Some(kept) => Response(200, Obj(map["jobs" := Arr(ListJobs(kept))]))
  }

  /** The whole handler: the response written for a method, the settings and the upstream outcome. */
  function Handle(httpMethod: string, env: Env, upstream: Upstream): (r: Response)
    ensures httpMethod != "GET" ==> r == Response(405, ErrorBody("Method not allowed"))
    ensures httpMethod == "GET" && !(IsSet(env.apiKey) && IsSet(env.locationId)) ==>
      r == Response(500, ConfigErrorBody(IsSet(env.apiKey), IsSet(env.locationId), true))
    ensures httpMethod == "GET" && IsSet(env.apiKey) && IsSet(env.locationId) ==> r == Finish(upstream)
  {
    match Prepare(httpMethod, env)
    case Respond(response) => response
    case Search(_) => Finish(upstream)
  }

  /**
   * A 200 response lists one job per kept record, in the records' order, each
   * built from its record; the survivors are the records at `KeptIndices`.
   */
  lemma PublishedJobs(data: Value)
    requires Finish(Answered(data)).status == 200
    ensures RawRecords(data).Some?
    ensures forall i :: 0 <= i < |RawRecords(data).value| ==> !IsNullish(RawRecords(data).value[i])
    ensures var records := RawRecords(data).value;
      var idx := KeptIndices(records);
      var body := Finish(Answered(data)).body;
      && body.Obj? && body.fields.Keys == {"jobs"} && body.fields["jobs"].Arr?
      && |body.fields["jobs"].items| == |idx|
      && forall k :: 0 <= k < |idx| ==> body.fields["jobs"].items[k] == JobValue(Normalize(records[idx[k]]))
  {
    var records := RawRecords(data).value;
    assert forall i :: 0 <= i < |records| ==> records[i] in records;
    FilterKeepsInOrder(records);
    var kept := Filter(records).value;
    assert Finish(Answered(data)).body == Obj(map["jobs" := Arr(ListJobs(kept))]);
  }

  /** An upstream failure reaches the caller with its status and text, and without a `jobs` member. */
  lemma UpstreamFailurePassesThrough(env: Env, status: int, text: string)
    requires IsSet(env.apiKey) && IsSet(env.locationId)
    ensures var r := Handle("GET", env, Failed(status, text));
      r.status == status && r.body.Obj? && "jobs" !in r.body.fields
      && r.body.fields["body"] == Str(text) && r.body.fields["status"] == Num(status as real)
  {
  }
}
