/** src/tools/pr-tools.ts: the pull-request tools. Each one builds the
    payload of its API call from the parameters, guards the cases that need
    no call, and renders the answer; every thrown error becomes an error
    response through `executeOperation`. */
module PrTools {
  import opened Wrappers
  import opened Strings
  import opened Json
  import opened Types
  import opened Helpers
  import Api
  import opened BaseTool

  /** The success response for a rendered text, the error response for a
      thrown message. */
  function Respond(operation: string, text: Result<string>): (r: ToolResult)
    ensures text.Ok? ==> r == CreateSuccessResponse(text.value)
    ensures text.Err? ==> r == CreateErrorResponse(operation, ErrorValue(text.msg))
  {
    ExecuteOperation(operation, if text.Ok? then Ok(CreateSuccessResponse(text.value)) else Err(text.msg))
  }

  // ---- createPullRequest ----

  datatype CreateParams = CreateParams(owner: string, repo: string, title: string, body: string, head: string, base: string)

  /** The payload holds exactly `title`, `body`, `head` and `base`, in that order. */
  function CreatePayload(p: CreateParams): (data: Json)
    ensures data.JObj? && Keys(data.fields) == ["title", "body", "head", "base"]
    ensures Lookup(data.fields, "title") == Some(JStr(p.title))
    ensures Lookup(data.fields, "body") == Some(JStr(p.body))
    ensures Lookup(data.fields, "head") == Some(JStr(p.head))
    ensures Lookup(data.fields, "base") == Some(JStr(p.base))
  {
    var fields := [("title", JStr(p.title)), ("body", JStr(p.body)), ("head", JStr(p.head)), ("base", JStr(p.base))];
    assert Keys(fields) == ["title", "body", "head", "base"] by {
      var ks := Keys(fields);
      assert ks[0] == "title" && ks[1] == "body" && ks[2] == "head" && ks[3] == "base";
    }
    assert Lookup(fields, "title") == Some(JStr(p.title)) by { LookupFinds(fields, 0); }
    assert Lookup(fields, "body") == Some(JStr(p.body)) by { LookupFinds(fields, 1); }
    assert Lookup(fields, "head") == Some(JStr(p.head)) by { LookupFinds(fields, 2); }
    assert Lookup(fields, "base") == Some(JStr(p.base)) by { LookupFinds(fields, 3); }
    JObj(fields)
  }

  /** The confirmation for a created pull request, read off GitHub's answer. */
  function CreatedText(pr: Json): (r: Result<string>)
    ensures pr.JNull? ==> r == Err(NullAccessMessage("null", "number"))
    ensures pr.JObj? ==> r == Ok("Pull request created successfully!\n\nPR #" + Display(Lookup(pr.fields, "number"))
                                 + ": " + Display(Lookup(pr.fields, "title"))
                                 + "\nURL: " + Display(Lookup(pr.fields, "html_url")))
  {
    match Field(pr, "number")
    case Err(m) => Err(m)
    case Ok(number) =>
      Ok("Pull request created successfully!\n\nPR #" + number + ": " + Field(pr, "title").value
         + "\nURL: " + Field(pr, "html_url").value)
  }

  /** `createPullRequest`: one `POST` with the four fields. */
  function CreatePullRequest(p: CreateParams, svc: Service): (run: Run)
    ensures run.calls == [Api.CreatePullRequest(p.owner, p.repo, CreatePayload(p))]
    ensures svc.json(run.calls[0]).Err? ==>
      run.result == CreateErrorResponse("create pull request", ErrorValue(svc.json(run.calls[0]).msg))
    ensures svc.json(run.calls[0]).Ok? ==> run.result == Respond("create pull request", CreatedText(svc.json(run.calls[0]).value))
  {
    var call := Api.CreatePullRequest(p.owner, p.repo, CreatePayload(p));
    var text := match svc.json(call)
      case Err(m) => Err(m)
      case Ok(pr) => CreatedText(pr);
    Run(Respond("create pull request", text), [call])
  }

  // ---- updatePullRequest ----

  datatype UpdateParams = UpdateParams(owner: string, repo: string, prNumber: int,
                                       title: Option<string>, body: Option<string>,
                                       state: Option<string>, base: Option<string>)

  /** The position of an updatable field in the order the payload is built. */
  function Rank(key: string): int
  {
    if key == "title" then 0 else if key == "body" then 1 else if key == "state" then 2 else if key == "base" then 3 else 4
  }

  function Requested(p: UpdateParams, key: string): Option<string>
  {
    if key == "title" then p.title else if key == "body" then p.body
    else if key == "state" then p.state else if key == "base" then p.base else None
  }

  function FieldIf(key: string, v: Option<string>): (r: seq<(string, Json)>)
    ensures v.None? ==> r == []
    ensures v.Some? ==> r == [(key, JStr(v.value))]
    ensures Keys(r) == if v.Some? then [key] else []
  {
    if v.Some? then [(key, JStr(v.value))] else []
  }

  /** Fields appear in the canonical order. */
  predicate Ordered(fields: seq<(string, Json)>)
  {
    forall i, j :: 0 <= i < j < |fields| ==> Rank(fields[i].0) < Rank(fields[j].0)
  }

  /** Every field sent is an updatable one and carries the requested value. */
  predicate AsRequested(p: UpdateParams, fields: seq<(string, Json)>)
  {
    forall i :: 0 <= i < |fields| ==>
      Rank(fields[i].0) < 4 && fields[i].1.JStr? && Requested(p, fields[i].0) == Some(fields[i].1.s)
  }

  /** The updatable fields in the order the payload is built. */
  function UpdatableKey(n: nat): (key: string)
    requires n < 4
    ensures Rank(key) == n
  {
    if n == 0 then "title" else if n == 1 then "body" else if n == 2 then "state" else "base"
  }

  /** The payload built from the first `n` updatable fields. */
  function FieldsUpTo(p: UpdateParams, n: nat): seq<(string, Json)>
    requires n <= 4
  {
    if n == 0 then []
    else FieldsUpTo(p, n - 1) + FieldIf(UpdatableKey(n - 1), Requested(p, UpdatableKey(n - 1)))
  }

  /** The fields gathered from the first `n` keys come in order, each carrying
      its requested value. */
  lemma {:induction false} FieldsUpToShape(p: UpdateParams, n: nat)
    requires n <= 4
    ensures AsRequested(p, FieldsUpTo(p, n))
    ensures forall i :: 0 <= i < |FieldsUpTo(p, n)| ==> Rank(FieldsUpTo(p, n)[i].0) < n
    ensures Ordered(FieldsUpTo(p, n))
  {
    if n > 0 {
      FieldsUpToShape(p, n - 1);
      var init := FieldsUpTo(p, n - 1);
      var key := UpdatableKey(n - 1);
      assert FieldsUpTo(p, n) == init + FieldIf(key, Requested(p, key));
    }
  }

  /** Every key among the first `n` that was requested is gathered. */
  lemma {:induction false} FieldsUpToCovers(p: UpdateParams, n: nat)
    requires n <= 4
    ensures forall k :: Rank(k) < n && Requested(p, k).Some? ==> k in Keys(FieldsUpTo(p, n))
  {
    if n > 0 {
      FieldsUpToCovers(p, n - 1);
      var init := FieldsUpTo(p, n - 1);
      var key := UpdatableKey(n - 1);
      var last := FieldIf(key, Requested(p, key));
      assert Keys(init + last) == Keys(init) + Keys(last);
      forall k | Rank(k) < n && Requested(p, k).Some? ensures k in Keys(init + last) {
        if Rank(k) == n - 1 {
          assert k == key;
        }
      }
    }
  }

  /** The update payload: exactly the fields that are not `undefined`, each
      with its value, in the order title, body, state, base. */
  function UpdateFields(p: UpdateParams): (fields: seq<(string, Json)>)
    ensures Ordered(fields) && AsRequested(p, fields)
    ensures p.title.Some? <==> "title" in Keys(fields)
    ensures p.body.Some? <==> "body" in Keys(fields)
    ensures p.state.Some? <==> "state" in Keys(fields)
    ensures p.base.Some? <==> "base" in Keys(fields)
    ensures fields == [] <==> p.title.None? && p.body.None? && p.state.None? && p.base.None?
  {
    FieldsUpToKeys(p);
    FieldsUpToEmpty(p);
    FieldsUpTo(p, 4)
  }

  /** A key is in the full payload exactly when its parameter is defined. */
  lemma FieldsUpToKeys(p: UpdateParams)
    ensures Ordered(FieldsUpTo(p, 4)) && AsRequested(p, FieldsUpTo(p, 4))
    ensures forall k :: k in Keys(FieldsUpTo(p, 4)) <==> Rank(k) < 4 && Requested(p, k).Some?
  {
    var fields := FieldsUpTo(p, 4);
    FieldsUpToShape(p, 4);
    FieldsUpToCovers(p, 4);
    forall k | k in Keys(fields) ensures Rank(k) < 4 && Requested(p, k).Some? {
      var i :| 0 <= i < |fields| && Keys(fields)[i] == k;
    }
  }

  /** The full payload is empty exactly when no parameter is defined. */
  lemma FieldsUpToEmpty(p: UpdateParams)
    ensures FieldsUpTo(p, 4) == [] <==> p.title.None? && p.body.None? && p.state.None? && p.base.None?
  {
    assert Requested(p, "title") == p.title && Requested(p, "body") == p.body;
    assert Requested(p, "state") == p.state && Requested(p, "base") == p.base;
    assert |FieldsUpTo(p, 4)| == |FieldsUpTo(p, 3)| + |FieldIf("base", p.base)|;
    assert |FieldsUpTo(p, 3)| == |FieldsUpTo(p, 2)| + |FieldIf("state", p.state)|;
    assert |FieldsUpTo(p, 2)| == |FieldsUpTo(p, 1)| + |FieldIf("body", p.body)|;
    assert |FieldsUpTo(p, 1)| == |FieldIf("title", p.title)|;
  }

  /** The payload as `updatePullRequest` fills it, one assignment per
      defined field; it is exactly `UpdateFields`. */
  method BuildUpdateData(p: UpdateParams) returns (fields: seq<(string, Json)>)
    ensures fields == UpdateFields(p)
  {
    fields := [];
    assert fields == FieldsUpTo(p, 0);
    if p.title.Some? {
      fields := fields + [("title", JStr(p.title.value))];
    }
    assert fields == FieldsUpTo(p, 1);
    if p.body.Some? {
      fields := fields + [("body", JStr(p.body.value))];
    }
    assert fields == FieldsUpTo(p, 2);
    if p.state.Some? {
      fields := fields + [("state", JStr(p.state.value))];
    }
    assert fields == FieldsUpTo(p, 3);
    if p.base.Some? {
      fields := fields + [("base", JStr(p.base.value))];
    }
    assert fields == FieldsUpTo(p, 4);
  }

  const NoFieldsMessage := "No fields specified for update. Please specify at least one field to update (title, body, state, or base)."

  /** The confirmation for an update, listing the fields sent. */
  function UpdatedText(pr: Json, fields: seq<(string, Json)>): (r: Result<string>)
    ensures pr.JNull? ==> r == Err(NullAccessMessage("null", "number"))
    ensures pr.JObj? ==> r == Ok("Pull request #" + Display(Lookup(pr.fields, "number"))
                                 + " updated successfully!\n\nUpdated fields: " + Join(Keys(fields), ", ")
                                 + "\nTitle: " + Display(Lookup(pr.fields, "title"))
                                 + "\nURL: " + Display(Lookup(pr.fields, "html_url")))
  {
    match Field(pr, "number")
    case Err(m) => Err(m)
    case Ok(number) =>
      Ok("Pull request #" + number + " updated successfully!\n\nUpdated fields: " + Join(Keys(fields), ", ")
         + "\nTitle: " + Field(pr, "title").value + "\nURL: " + Field(pr, "html_url").value)
  }

  /** `updatePullRequest`: no call at all when every field is `undefined`,
      otherwise one `PATCH` with the defined fields. */
  function UpdatePullRequest(p: UpdateParams, svc: Service): (run: Run)
    ensures run.calls == [] <==> p.title.None? && p.body.None? && p.state.None? && p.base.None?
    ensures run.calls == [] ==> run.result == CreateSuccessResponse(NoFieldsMessage)
    ensures run.calls != [] ==> run.calls == [Api.UpdatePullRequest(p.owner, p.repo, p.prNumber, JObj(UpdateFields(p)))]
    ensures run.calls != [] && svc.json(run.calls[0]).Err? ==>
      run.result == CreateErrorResponse("update pull request", ErrorValue(svc.json(run.calls[0]).msg))
    ensures run.calls != [] && svc.json(run.calls[0]).Ok? ==>
      run.result == Respond("update pull request", UpdatedText(svc.json(run.calls[0]).value, UpdateFields(p)))
  {
    var fields := UpdateFields(p);
    if |Keys(fields)| == 0 then Run(CreateSuccessResponse(NoFieldsMessage), [])
    else
      var call := Api.UpdatePullRequest(p.owner, p.repo, p.prNumber, JObj(fields));
      var text := match svc.json(call)
        case Err(m) => Err(m)
        case Ok(pr) => UpdatedText(pr, fields);
      Run(Respond("update pull request", text), [call])
  }

  /** Only the state changes: the payload is `{ state }` and the text lists `state`. */
  lemma CloseOnlySendsState(owner: string, repo: string, n: int)
    ensures UpdateFields(UpdateParams(owner, repo, n, None, None, Some("closed"), None)) == [("state", JStr("closed"))]
    ensures Join(Keys(UpdateFields(UpdateParams(owner, repo, n, None, None, Some("closed"), None))), ", ") == "state"
  {
    var p := UpdateParams(owner, repo, n, None, None, Some("closed"), None);
    ClosePayload(p);
    assert Keys([("state", JStr("closed"))]) == ["state"];
  }

  lemma ClosePayload(p: UpdateParams)
    requires p.title.None? && p.body.None? && p.state == Some("closed") && p.base.None?
    ensures FieldsUpTo(p, 4) == [("state", JStr("closed"))]
  {
    var f2 := FieldsUpTo(p, 2);
    assert f2 == FieldsUpTo(p, 1) + FieldIf("body", None);
    assert FieldsUpTo(p, 1) == FieldsUpTo(p, 0) + FieldIf("title", None);
    assert f2 == [];
    var f3 := FieldsUpTo(p, 3);
    assert f3 == f2 + FieldIf("state", Some("closed"));
    assert FieldsUpTo(p, 4) == f3 + FieldIf("base", None);
  }

  /** Every field: the text lists them as `title, body, state, base`. */
  lemma AllFieldsListedInOrder(p: UpdateParams)
    requires p.title.Some? && p.body.Some? && p.state.Some? && p.base.Some?
    ensures Join(Keys(UpdateFields(p)), ", ") == "title, body, state, base"
  {
    assert Keys(UpdateFields(p)) == ["title", "body", "state", "base"] by {
      var f1 := FieldsUpTo(p, 1);
      assert f1 == FieldsUpTo(p, 0) + FieldIf("title", p.title);
      var f2 := FieldsUpTo(p, 2);
      assert f2 == f1 + FieldIf("body", p.body);
      var f3 := FieldsUpTo(p, 3);
      assert f3 == f2 + FieldIf("state", p.state);
      var f4 := FieldsUpTo(p, 4);
      assert f4 == f3 + FieldIf("base", p.base);
      assert |f4| == 4;
      var ks := Keys(f4);
      assert ks[0] == "title" && ks[1] == "body" && ks[2] == "state" && ks[3] == "base";
    }
    JoinOfAllFields();
  }

  lemma JoinOfAllFields()
    ensures Join(["title", "body", "state", "base"], ", ") == "title, body, state, base"
  {
    JoinOfLastThree();
    assert ["title", "body", "state", "base"][1..] == ["body", "state", "base"];
  }

  lemma JoinOfLastThree()
    ensures Join(["body", "state", "base"], ", ") == "body, state, base"
  {
    JoinOfLastTwo();
    assert ["body", "state", "base"][1..] == ["state", "base"];
  }

  lemma JoinOfLastTwo()
    ensures Join(["state", "base"], ", ") == "state, base"
  {
    assert ["state", "base"][1..] == ["base"];
  }

  // ---- listOpenPullRequests ----

  /** `limit || 10`: an absent or zero limit becomes 10. */
  function PerPage(limit: Option<int>): (n: int)
    ensures n != 0
    ensures limit.None? || limit == Some(0) ==> n == 10
    ensures limit.Some? && limit.value != 0 ==> n == limit.value
  {
    if limit.Some? && limit.value != 0 then limit.value else 10
  }

  /** `listOpenPullRequests`: one `GET` of the open pull requests, rendered as a list. */
  function ListOpenPullRequests(owner: string, repo: string, limit: Option<int>, svc: Service, date: DateRenderer): (run: Run)
    ensures run.calls == [Api.ListOpenPullRequests(owner, repo, PerPage(limit))]
    ensures svc.json(run.calls[0]).Err? ==>
      run.result == CreateErrorResponse("list open pull requests", ErrorValue(svc.json(run.calls[0]).msg))
    ensures svc.json(run.calls[0]) == Ok(JArr([])) ==>
      run.result == CreateSuccessResponse("No open pull requests found in " + owner + "/" + repo)
    ensures svc.json(run.calls[0]) == Ok(JNull) ==>
      run.result == CreateErrorResponse("list open pull requests", ErrorValue(NullAccessMessage("null", "length")))
    ensures svc.json(run.calls[0]).Ok? && !svc.json(run.calls[0]).value.JArr? ==>
      run.result == CreateErrorResponse("list open pull requests",
                                        ErrorValue(AsList(svc.json(run.calls[0]).value, "length", "pullRequests").msg))
    ensures svc.json(run.calls[0]).Ok? && svc.json(run.calls[0]).value.JArr? ==>
      run.result == Respond("list open pull requests",
                            FormatPullRequestList(svc.json(run.calls[0]).value.items, owner, repo, date))
  {
    var call := Api.ListOpenPullRequests(owner, repo, PerPage(limit));
    var text := match svc.json(call)
      case Err(m) => Err(m)
      case Ok(v) =>
        match AsList(v, "length", "pullRequests")
        case Err(m) => Err(m)
        case Ok(prs) => FormatPullRequestList(prs, owner, repo, date);
    Run(Respond("list open pull requests", text), [call])
  }

  // ---- getPullRequestDiff ----

  /** The diff response, headed by the pull request's title. */
  function DiffText(pr: Json, prNumber: int, diff: string): (r: Result<string>)
    ensures pr.JNull? ==> r == Err(NullAccessMessage("null", "title"))
    ensures pr.JObj? ==> r == Ok("Diff for PR #" + IntToString(prNumber) + ": " + Display(Lookup(pr.fields, "title"))
                                 + "\n\n```diff\n" + diff + "\n```")
  {
    match Field(pr, "title")
    case Err(m) => Err(m)
    case Ok(title) => Ok("Diff for PR #" + IntToString(prNumber) + ": " + title + "\n\n```diff\n" + diff + "\n```")
  }

  /** `getPullRequestDiff`: the diff first; a blank diff answers at once,
      without asking for the pull request's metadata. */
  function GetPullRequestDiff(owner: string, repo: string, prNumber: int, svc: Service): (run: Run)
    ensures |run.calls| >= 1 && run.calls[0] == Api.GetPullRequestDiff(owner, repo, prNumber)
    ensures svc.diff(run.calls[0]).Err? ==>
      run.calls == [run.calls[0]]
      && run.result == CreateErrorResponse("get pull request diff", ErrorValue(svc.diff(run.calls[0]).msg))
    ensures svc.diff(run.calls[0]).Ok? && AllWhitespace(svc.diff(run.calls[0]).value) ==>
      run.calls == [run.calls[0]]
      && run.result == CreateSuccessResponse("No changes found in PR #" + IntToString(prNumber))
    ensures svc.diff(run.calls[0]).Ok? && !AllWhitespace(svc.diff(run.calls[0]).value) ==>
      run.calls == [run.calls[0], Api.GetPullRequest(owner, repo, prNumber)]
      && (svc.json(run.calls[1]).Err? ==>
            run.result == CreateErrorResponse("get pull request diff", ErrorValue(svc.json(run.calls[1]).msg)))
      && (svc.json(run.calls[1]).Ok? ==>
            run.result == Respond("get pull request diff",
                                  DiffText(svc.json(run.calls[1]).value, prNumber, svc.diff(run.calls[0]).value)))
  {
    var diffCall := Api.GetPullRequestDiff(owner, repo, prNumber);
    match svc.diff(diffCall)
    case Err(m) => Run(Respond("get pull request diff", Err(m)), [diffCall])
    case Ok(diff) =>
      TrimEmptyIffBlank(diff);
      if diff == "" || Trim(diff) == "" then
        Run(CreateSuccessResponse("No changes found in PR #" + IntToString(prNumber)), [diffCall])
      else
        var prCall := Api.GetPullRequest(owner, repo, prNumber);
        var text := match svc.json(prCall)
          case Err(m) => Err(m)
          case Ok(pr) => DiffText(pr, prNumber, diff);
        Run(Respond("get pull request diff", text), [diffCall, prCall])
  }

  // ---- requestReviewers ----

  const NoReviewersMessage := "No reviewers specified. Please provide at least one reviewer username."

  /** `reviewer`, with the plural `s` exactly when more than one is named. */
  function ReviewerNoun(count: int): (noun: string)
    ensures noun == "reviewers" <==> count > 1
    ensures noun == "reviewer" <==> count <= 1
  {
    "reviewer" + if count > 1 then "s" else ""
  }

  function ReviewersText(prNumber: int, reviewers: seq<string>): string
  {
    "Successfully requested " + IntToString(|reviewers|) + " " + ReviewerNoun(|reviewers|)
    + " for PR #" + IntToString(prNumber) + ": " + Join(reviewers, ", ")
  }

  /** `requestReviewers`: an empty list answers without any call; otherwise
      one `POST` naming all the reviewers, confirmed with their count. */
  function RequestReviewers(owner: string, repo: string, prNumber: int, reviewers: seq<string>, svc: Service): (run: Run)
    ensures run.calls == [] <==> reviewers == []
    ensures reviewers == [] ==> run.result == CreateSuccessResponse(NoReviewersMessage)
    ensures reviewers != [] ==> run.calls == [Api.RequestReviewers(owner, repo, prNumber, reviewers)]
    ensures reviewers != [] && svc.json(run.calls[0]).Err? ==>
      run.result == CreateErrorResponse("request reviewers", ErrorValue(svc.json(run.calls[0]).msg))
    ensures reviewers != [] && svc.json(run.calls[0]).Ok? ==>
      run.result == CreateSuccessResponse(ReviewersText(prNumber, reviewers))
  {
    if |reviewers| == 0 then Run(CreateSuccessResponse(NoReviewersMessage), [])
    else
      var call := Api.RequestReviewers(owner, repo, prNumber, reviewers);
      var text := match svc.json(call)
        case Err(m) => Err(m)
        case Ok(_) => Ok(ReviewersText(prNumber, reviewers));
      Run(Respond("request reviewers", text), [call])
  }

  // ---- getChangesForCommenting ----

  const UnexpectedFileRecord := "unexpected file record"

  /** Reads one record of the files endpoint. A missing or `null` patch is
      no patch; fields of another type than documented are refused. */
  function DecodeFile(v: Json): (r: Result<PullRequestFile>)
    ensures v.JNull? ==> r == Err(NullAccessMessage("null", "filename"))
    ensures r.Ok? ==> v.JObj?
  {
    match v
    case JNull => Err(NullAccessMessage("null", "filename"))
    case JObj(fields) =>
      var name := StringField(fields, "filename");
      var status := StringField(fields, "status");
      var additions := NumberField(fields, "additions");
      var deletions := NumberField(fields, "deletions");
      var changes := NumberField(fields, "changes");
      var patch := Lookup(fields, "patch");
      if name.None? || status.None? || additions.None? || deletions.None? || changes.None? then
        Err(UnexpectedFileRecord)
      else if patch.None? || patch == Some(JNull) then
        Ok(PullRequestFile(name.value, status.value, additions.value, deletions.value, changes.value, None))
      else if patch.value.JStr? then
        Ok(PullRequestFile(name.value, status.value, additions.value, deletions.value, changes.value, Some(patch.value.s)))
      else Err(UnexpectedFileRecord)
    case _ => Err(UnexpectedFileRecord)
  }

  /** The field `key` when it holds a string. */
  function StringField(fields: seq<(string, Json)>, key: string): (r: Option<string>)
    ensures r.Some? <==> Lookup(fields, key).Some? && Lookup(fields, key).value.JStr?
    ensures r.Some? ==> Lookup(fields, key) == Some(JStr(r.value))
  {
    match Lookup(fields, key)
    case Some(JStr(s)) => Some(s)
    case _ => None
  }

  /** The field `key` when it holds a number. */
  function NumberField(fields: seq<(string, Json)>, key: string): (r: Option<int>)
    ensures r.Some? <==> Lookup(fields, key).Some? && Lookup(fields, key).value.JNum?
    ensures r.Some? ==> Lookup(fields, key) == Some(JNum(r.value))
  {
    match Lookup(fields, key)
    case Some(JNum(n)) => Some(n)
    case _ => None
  }

  /** A decoded file carries exactly the fields of its record; a missing or
      `null` patch is the only way to have no patch. */
  lemma DecodedFileMatchesRecord(v: Json)
    requires DecodeFile(v).Ok?
    ensures v.JObj?
    ensures Lookup(v.fields, "filename") == Some(JStr(DecodeFile(v).value.filename))
    ensures Lookup(v.fields, "status") == Some(JStr(DecodeFile(v).value.status))
    ensures Lookup(v.fields, "additions") == Some(JNum(DecodeFile(v).value.additions))
    ensures Lookup(v.fields, "deletions") == Some(JNum(DecodeFile(v).value.deletions))
    ensures Lookup(v.fields, "changes") == Some(JNum(DecodeFile(v).value.changes))
    ensures DecodeFile(v).value.patch.Some? ==> Lookup(v.fields, "patch") == Some(JStr(DecodeFile(v).value.patch.value))
    ensures DecodeFile(v).value.patch.None? ==> Lookup(v.fields, "patch") in {None, Some(JNull)}
  {
  }

  /** The records of the files endpoint, each read by `DecodeFile`; the
      first unreadable one decides the error (see `MapResultEach`). */
  function DecodeFiles(items: seq<Json>): (r: Result<seq<PullRequestFile>>)
    ensures r.Ok? ==> |r.value| == |items|
  {
    MapResult(DecodeFile, items)
  }
  /** The file list decodes iff every record does, each into its own file, in order. */
  lemma DecodeFilesEach(items: seq<Json>)
    ensures DecodeFiles(items).Ok? <==> forall i :: 0 <= i < |items| ==> DecodeFile(items[i]).Ok?
    ensures DecodeFiles(items).Ok? ==>
      forall i :: 0 <= i < |items| ==> DecodeFile(items[i]) == Ok(DecodeFiles(items).value[i])
  {
    MapResultEach(DecodeFile, items);
  }


  /** `getChangesForCommenting`: one `GET` of the files, each listed with
      the positions a review comment can target. */
  function GetChangesForCommenting(owner: string, repo: string, prNumber: int, svc: Service): (run: Run)
    ensures run.calls == [Api.GetFiles(owner, repo, prNumber)]
    ensures svc.json(run.calls[0]).Err? ==>
      run.result == CreateErrorResponse("get PR changes for commenting", ErrorValue(svc.json(run.calls[0]).msg))
    ensures svc.json(run.calls[0]) == Ok(JNull) ==>
      run.result == CreateErrorResponse("get PR changes for commenting", ErrorValue(NullAccessMessage("null", "map")))
    ensures svc.json(run.calls[0]).Ok? && !svc.json(run.calls[0]).value.JArr? ==>
      run.result == CreateErrorResponse("get PR changes for commenting",
                                        ErrorValue(AsList(svc.json(run.calls[0]).value, "map", "files").msg))
    ensures svc.json(run.calls[0]).Ok? && svc.json(run.calls[0]).value.JArr?
            && DecodeFiles(svc.json(run.calls[0]).value.items).Err? ==>
      run.result == CreateErrorResponse("get PR changes for commenting",
                                        ErrorValue(DecodeFiles(svc.json(run.calls[0]).value.items).msg))
    ensures svc.json(run.calls[0]).Ok? && svc.json(run.calls[0]).value.JArr?
            && DecodeFiles(svc.json(run.calls[0]).value.items).Ok? ==>
      run.result == CreateSuccessResponse(
        FormatFileChanges(EnrichFileChanges(DecodeFiles(svc.json(run.calls[0]).value.items).value), prNumber))
  {
    var call := Api.GetFiles(owner, repo, prNumber);
    var text := match svc.json(call)
      case Err(m) => Err(m)
      case Ok(v) =>
        match AsList(v, "map", "files")
        case Err(m) => Err(m)
        case Ok(items) =>
          match DecodeFiles(items)
          case Err(m) => Err(m)
          case Ok(files) => Ok(FormatFileChanges(EnrichFileChanges(files), prNumber));
    Run(Respond("get PR changes for commenting", text), [call])
  }
}
