/** src/tools/comment-tools.ts: the comment tools. Every comment this
    server posts starts with the AI marker; a code-review comment is pinned
    to the head commit read from the pull request first. */
module CommentTools {
  import opened Wrappers
  import opened Strings
  import opened Json
  import opened Helpers
  import Api
  import opened BaseTool
  import opened PrTools

  // ---- addComment ----

  /** The confirmation for a posted conversation comment. */
  function CommentAddedText(prNumber: int, comment: Json): (r: Result<string>)
    ensures comment.JNull? ==> r == Err(NullAccessMessage("null", "html_url"))
    ensures comment.JObj? ==> r == Ok("Comment added successfully to PR #" + IntToString(prNumber)
                                      + "\nComment URL: " + Display(Lookup(comment.fields, "html_url")))
  {
    match Field(comment, "html_url")
    case Err(m) => Err(m)
    case Ok(url) => Ok("Comment added successfully to PR #" + IntToString(prNumber) + "\nComment URL: " + url)
  }

  /** `addComment`: one `POST` whose body is the marker followed by the text. */
  function AddComment(owner: string, repo: string, prNumber: int, body: string, svc: Service): (run: Run)
    ensures |run.calls| == 1 && run.calls[0].AddComment?
    ensures run.calls[0] == Api.AddComment(owner, repo, prNumber, run.calls[0].body)
    ensures StartsWith(run.calls[0].body, AiCommentIdentifier)
    ensures run.calls[0].body[|AiCommentIdentifier|..] == body
    ensures svc.json(run.calls[0]).Err? ==>
      run.result == CreateErrorResponse("add PR comment", ErrorValue(svc.json(run.calls[0]).msg))
    ensures svc.json(run.calls[0]).Ok? ==>
      run.result == Respond("add PR comment", CommentAddedText(prNumber, svc.json(run.calls[0]).value))
  {
    var marked := AiCommentIdentifier + body;
    assert marked[..|AiCommentIdentifier|] == AiCommentIdentifier;
    var call := Api.AddComment(owner, repo, prNumber, marked);
    var text := match svc.json(call)
      case Err(m) => Err(m)
      case Ok(comment) => CommentAddedText(prNumber, comment);
    Run(Respond("add PR comment", text), [call])
  }

  // ---- addReviewComment ----

  datatype ReviewCommentParams = ReviewCommentParams(owner: string, repo: string, prNumber: int,
                                                     body: string, path: string, position: int)

  /** The review comment payload. `commit_id` is the head commit; when that
      is `undefined`, `JSON.stringify` leaves the key out. */
  function ReviewPayload(p: ReviewCommentParams, commitId: Option<Json>): (data: Json)
    ensures data.JObj?
    ensures commitId.Some? ==> Keys(data.fields) == ["body", "commit_id", "path", "position"]
    ensures commitId.None? ==> Keys(data.fields) == ["body", "path", "position"]
    ensures Lookup(data.fields, "body") == Some(JStr(AiCommentIdentifier + p.body))
    ensures Lookup(data.fields, "commit_id") == commitId
    ensures Lookup(data.fields, "path") == Some(JStr(p.path))
    ensures Lookup(data.fields, "position") == Some(JNum(p.position))
  {
    var body := ("body", JStr(AiCommentIdentifier + p.body));
    var path := ("path", JStr(p.path));
    var position := ("position", JNum(p.position));
    if commitId.Some? then
      var fields := [body, ("commit_id", commitId.value), path, position];
      assert Keys(fields) == ["body", "commit_id", "path", "position"] by {
        var ks := Keys(fields);
        assert ks[0] == "body" && ks[1] == "commit_id" && ks[2] == "path" && ks[3] == "position";
      }
      assert Lookup(fields, "body") == Some(body.1) by { LookupFinds(fields, 0); }
      assert Lookup(fields, "commit_id") == commitId by { LookupFinds(fields, 1); }
      assert Lookup(fields, "path") == Some(path.1) by { LookupFinds(fields, 2); }
      assert Lookup(fields, "position") == Some(position.1) by { LookupFinds(fields, 3); }
      JObj(fields)
    else
      var fields := [body, path, position];
      assert Keys(fields) == ["body", "path", "position"] by {
        var ks := Keys(fields);
        assert ks[0] == "body" && ks[1] == "path" && ks[2] == "position";
      }
      assert Lookup(fields, "body") == Some(body.1) by { LookupFinds(fields, 0); }
      assert Lookup(fields, "commit_id") == None by {
        assert forall i :: 0 <= i < |fields| ==> fields[i].0 != "commit_id";
      }
      assert Lookup(fields, "path") == Some(path.1) by { LookupFinds(fields, 1); }
      assert Lookup(fields, "position") == Some(position.1) by { LookupFinds(fields, 2); }
      JObj(fields)
  }

  /** The confirmation for a posted review comment. */
  function ReviewCommentAddedText(p: ReviewCommentParams, comment: Json): (r: Result<string>)
    ensures comment.JNull? ==> r == Err(NullAccessMessage("null", "html_url"))
    ensures comment.JObj? ==> r == Ok("Review comment added successfully to PR #" + IntToString(p.prNumber)
                                      + "\nFile: " + p.path + " (position " + IntToString(p.position) + ")"
                                      + "\nComment URL: " + Display(Lookup(comment.fields, "html_url")))
  {
    match Field(comment, "html_url")
    case Err(m) => Err(m)
    case Ok(url) =>
      Ok("Review comment added successfully to PR #" + IntToString(p.prNumber)
         + "\nFile: " + p.path + " (position " + IntToString(p.position) + ")" + "\nComment URL: " + url)
  }

  /** `addReviewComment`: the pull request first, then one `POST` pinned to
      its `head.sha`; nothing is posted when the first call fails or the
      answer has no `head`. */
  function AddReviewComment(p: ReviewCommentParams, svc: Service): (run: Run)
    ensures |run.calls| >= 1 && run.calls[0] == Api.GetPullRequest(p.owner, p.repo, p.prNumber)
    ensures svc.json(run.calls[0]).Err? ==>
      run.calls == [run.calls[0]]
      && run.result == CreateErrorResponse("add review comment to PR", ErrorValue(svc.json(run.calls[0]).msg))
    ensures svc.json(run.calls[0]).Ok? && Path(svc.json(run.calls[0]).value, "head", "sha").Err? ==>
      run.calls == [run.calls[0]]
      && run.result == CreateErrorResponse("add review comment to PR",
                                           ErrorValue(Path(svc.json(run.calls[0]).value, "head", "sha").msg))
    ensures svc.json(run.calls[0]).Ok? && Path(svc.json(run.calls[0]).value, "head", "sha").Ok? ==>
      var data := ReviewPayload(p, Path(svc.json(run.calls[0]).value, "head", "sha").value);
      && run.calls == [run.calls[0], Api.AddReviewComment(p.owner, p.repo, p.prNumber, data)]
      && (svc.json(run.calls[1]).Err? ==>
            run.result == CreateErrorResponse("add review comment to PR", ErrorValue(svc.json(run.calls[1]).msg)))
      && (svc.json(run.calls[1]).Ok? ==>
            run.result == Respond("add review comment to PR", ReviewCommentAddedText(p, svc.json(run.calls[1]).value)))
  {
    var prCall := Api.GetPullRequest(p.owner, p.repo, p.prNumber);
    match svc.json(prCall)
    case Err(m) => Run(Respond("add review comment to PR", Err(m)), [prCall])
    case Ok(pr) =>
      match Path(pr, "head", "sha")
      case Err(m) => Run(Respond("add review comment to PR", Err(m)), [prCall])
      case Ok(commitId) =>
        var call := Api.AddReviewComment(p.owner, p.repo, p.prNumber, ReviewPayload(p, commitId));
        var text := match svc.json(call)
          case Err(m) => Err(m)
          case Ok(comment) => ReviewCommentAddedText(p, comment);
        Run(Respond("add review comment to PR", text), [prCall, call])
  }

  // ---- getComments ----

  /** `formatComments` on the two raw answers, in the order it reads them:
      the conversation list's `length` first, then its comments are
      rendered, and only then is the review list's `length` read. */
  function FormatCommentAnswers(issues: Json, reviews: Json, prNumber: int, date: DateRenderer): (r: Result<string>)
    ensures issues.JNull? ==> r == Err(NullAccessMessage("null", "length"))
    ensures issues.JArr? && CommentTexts(issues.items, false, date).Err? ==>
      r == Err(CommentTexts(issues.items, false, date).msg)
    ensures issues.JArr? && CommentTexts(issues.items, false, date).Ok? && reviews.JNull? ==>
      r == Err(NullAccessMessage("null", "length"))
    ensures issues.JArr? && reviews.JArr? ==> r == FormatComments(issues.items, reviews.items, prNumber, date)
    ensures r.Ok? ==> issues.JArr? && reviews.JArr?
  {
    match AsList(issues, "length", "issueComments")
    case Err(m) => Err(m)
    case Ok(issueItems) =>
      match CommentTexts(issueItems, false, date)
      case Err(m) => Err(m)
      case Ok(_) =>
        match AsList(reviews, "length", "reviewComments")
        case Err(m) => Err(m)
        case Ok(reviewItems) => FormatComments(issueItems, reviewItems, prNumber, date)
  }

  /** A null conversation comment fails on `user` even when the review
      answer is null too: the review list is not read before the
      conversation comments are rendered. */
  lemma NullCommentReportedBeforeReviewList(prNumber: int, date: DateRenderer)
    ensures FormatCommentAnswers(JArr([JNull]), JNull, prNumber, date) == Err(NullAccessMessage("null", "user"))
  {
    assert IssueCommentText(JNull, date) == Err(NullAccessMessage("null", "user"));
    CommentTextsEach([JNull], false, date);
  }

  /** `getComments`: both lists are always requested; the conversation
      list's failure is reported first, and the answers are formatted as
      `FormatCommentAnswers` reads them. */
  function GetComments(owner: string, repo: string, prNumber: int, svc: Service, date: DateRenderer): (run: Run)
    ensures run.calls == [Api.GetIssueComments(owner, repo, prNumber), Api.GetReviewComments(owner, repo, prNumber)]
    ensures svc.json(run.calls[0]).Err? ==>
      run.result == CreateErrorResponse("retrieve PR comments", ErrorValue(svc.json(run.calls[0]).msg))
    ensures svc.json(run.calls[0]).Ok? && svc.json(run.calls[1]).Err? ==>
      run.result == CreateErrorResponse("retrieve PR comments", ErrorValue(svc.json(run.calls[1]).msg))
    ensures svc.json(run.calls[0]).Ok? && svc.json(run.calls[1]).Ok? ==>
      run.result == Respond("retrieve PR comments",
                            FormatCommentAnswers(svc.json(run.calls[0]).value, svc.json(run.calls[1]).value, prNumber, date))
  {
    var issueCall := Api.GetIssueComments(owner, repo, prNumber);
    var reviewCall := Api.GetReviewComments(owner, repo, prNumber);
    var text := match (svc.json(issueCall), svc.json(reviewCall))
      case (Err(m), _) => Err(m)
      case (Ok(_), Err(m)) => Err(m)
      case (Ok(issues), Ok(reviews)) => FormatCommentAnswers(issues, reviews, prNumber, date);
    Run(Respond("retrieve PR comments", text), [issueCall, reviewCall])
  }
}
