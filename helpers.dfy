/** src/utils/helpers.ts: the diff position indexer, the file-change
    enrichment and the text formatters used by the tools. */
module Helpers {
  import opened Wrappers
  import opened Strings
  import opened Json
  import opened Types

  /** The prefix put in front of every comment body the tools post. */
  const AiCommentIdentifier := "[AI] Generated using MCP\n\n"

  /** A patch line that may receive a comment: it starts with `+` but is not
      a `+++` file header. */
  predicate IsAddedLine(line: string)
  {
    |line| >= 1 && line[0] == '+' && !(|line| >= 3 && line[1] == '+' && line[2] == '+')
  }

  /** The test the source writes: `startsWith('+') && !startsWith('+++')`. */
  lemma AddedLineByPrefixes(line: string)
    ensures IsAddedLine(line) <==> StartsWith(line, "+") && !StartsWith(line, "+++")
  {
    if |line| >= 1 {
      assert StartsWith(line, "+") <==> line[..1][0] == '+';
    }
    if |line| >= 3 {
      assert StartsWith(line, "+++") <==> line[..3][0] == '+' && line[..3][1] == '+' && line[..3][2] == '+';
    }
  }

  /** The 1-based ordinals, counted over every line, of the added lines. */
  function AddedPositions(lines: seq<string>): seq<nat>
    decreases |lines|
  {
    if lines == [] then []
    else
      var n := |lines|;
      AddedPositions(lines[..n - 1]) + (if IsAddedLine(lines[n - 1]) then [n] else [])
  }

  /** The positions `calculateCommentPositions` returns: none for an absent or
      empty patch, otherwise the added-line ordinals of its `'\n'`-split lines. */
  function CommentPositions(patch: Option<string>): seq<nat>
  {
    if patch == None || patch.value == "" then [] else AddedPositions(Split(patch.value))
  }

  predicate StrictlyIncreasing(s: seq<nat>)
  {
    forall i, j :: 0 <= i < j < |s| ==> s[i] < s[j]
  }

  /** `k` is reported exactly when the `k`-th line exists and is an added line. */
  lemma {:induction false} AddedPositionsMembership(lines: seq<string>, k: int)
    ensures k in AddedPositions(lines) <==> 1 <= k <= |lines| && IsAddedLine(lines[k - 1])
    decreases |lines|
  {
    if lines != [] {
      var n := |lines|;
      var prefix := lines[..n - 1];
      AddedPositionsMembership(prefix, k);
      if 1 <= k <= n - 1 {
        assert prefix[k - 1] == lines[k - 1];
      }
    }
  }

  /** The positions are strictly increasing, lie in `[1, |lines|]`, and are
      no more numerous than the lines. */
  lemma {:induction false} AddedPositionsShape(lines: seq<string>)
    ensures StrictlyIncreasing(AddedPositions(lines))
    ensures forall i :: 0 <= i < |AddedPositions(lines)| ==> 1 <= AddedPositions(lines)[i] <= |lines|
    ensures |AddedPositions(lines)| <= |lines|
    decreases |lines|
  {
    if lines != [] {
      AddedPositionsShape(lines[..|lines| - 1]);
    }
  }

  /** `calculateCommentPositions`: one counter step per line, and the counter
      is recorded for every added line. */
  method CalculateCommentPositions(patch: Option<string>) returns (positions: seq<nat>)
    ensures positions == CommentPositions(patch)
    ensures patch == None || patch == Some("") ==> positions == []
    ensures StrictlyIncreasing(positions)
    ensures patch.Some? ==> forall i :: 0 <= i < |positions| ==> 1 <= positions[i] <= |Split(patch.value)|
    ensures patch.Some? && patch.value != "" ==>
      forall k :: k in positions <==> 1 <= k <= |Split(patch.value)| && IsAddedLine(Split(patch.value)[k - 1])
  {
    positions := [];
    if patch == None || patch.value == "" {
      return;
    }
    var position := 0;
    var lines := Split(patch.value);
    for i := 0 to |lines|
      invariant position == i
      invariant positions == AddedPositions(lines[..i])
    {
      position := position + 1;
      var line := lines[i];
      AddedLineByPrefixes(line);
      if StartsWith(line, "+") && !StartsWith(line, "+++") {
        positions := positions + [position];
      }
      assert lines[..i + 1][..i] == lines[..i];
    }
    assert lines[..|lines|] == lines;
    AddedPositionsShape(lines);
    forall k ensures k in positions <==> 1 <= k <= |lines| && IsAddedLine(lines[k - 1]) {
      AddedPositionsMembership(lines, k);
    }
  }

  /** A trailing carriage return (a CRLF patch split on `'\n'`) never changes
      whether a line is an added line. */
  lemma AddedLineIgnoresCarriageReturn(line: string)
    ensures IsAddedLine(line + "\r") <==> IsAddedLine(line)
  {
    var l := line + "\r";
    assert l[|line|] == '\r';
    assert forall i :: 0 <= i < |line| ==> l[i] == line[i];
  }

  /** The positions again, computed front to back from a first ordinal. */
  function PositionsFrom(lines: seq<string>, first: nat): seq<nat>
    decreases |lines|
  {
    if lines == [] then []
    else (if IsAddedLine(lines[0]) then [first] else []) + PositionsFrom(lines[1..], first + 1)
  }

  /** Counting back to front and front to back agree. */
  lemma {:induction false} PositionsFromAgrees(lines: seq<string>, first: nat)
    requires first >= 1
    ensures PositionsFrom(lines, first) == Shift(AddedPositions(lines), first - 1)
    decreases |lines|
  {
    if lines != [] {
      var n := |lines|;
      var init := lines[..n - 1];
      PositionsFromAgrees(init, first);
      PositionsFromSnoc(init, lines[n - 1], first);
      assert init + [lines[n - 1]] == lines;
      ShiftAppend(AddedPositions(init), if IsAddedLine(lines[n - 1]) then [n] else [], first - 1);
    }
  }

  function Shift(s: seq<nat>, offset: nat): (r: seq<nat>)
    ensures |r| == |s| && forall i :: 0 <= i < |s| ==> r[i] == s[i] + offset
  {
    seq(|s|, i requires 0 <= i < |s| => s[i] + offset)
  }

  lemma ShiftAppend(a: seq<nat>, b: seq<nat>, offset: nat)
    ensures Shift(a + b, offset) == Shift(a, offset) + Shift(b, offset)
  {
  }

  lemma {:induction false} PositionsFromSnoc(lines: seq<string>, last: string, first: nat)
    ensures PositionsFrom(lines + [last], first)
      == PositionsFrom(lines, first) + (if IsAddedLine(last) then [first + |lines|] else [])
    decreases |lines|
  {
    var tail := if IsAddedLine(last) then [first + |lines|] else [];
    if lines == [] {
      assert ([] + [last])[1..] == [];
      assert PositionsFrom([last], first) == tail + PositionsFrom([], first + 1);
    } else {
      var all := lines + [last];
      assert all[0] == lines[0];
      assert all[1..] == lines[1..] + [last];
      PositionsFromSnoc(lines[1..], last, first + 1);
      var head := if IsAddedLine(lines[0]) then [first] else [];
      calc {
        PositionsFrom(all, first);
        head + PositionsFrom(lines[1..] + [last], first + 1);
        head + (PositionsFrom(lines[1..], first + 1) + tail);
        { AppendAssocNat(head, PositionsFrom(lines[1..], first + 1), tail); }
        head + PositionsFrom(lines[1..], first + 1) + tail;
        PositionsFrom(lines, first) + tail;
      }
    }
  }
  /** The positions of a patch given by its lines, counted front to back. */
  lemma PositionsOfLines(lines: seq<string>)
    requires |lines| >= 1 && lines[0] != ""
    requires forall k :: 0 <= k < |lines| ==> NoLineFeed(lines[k])
    ensures CommentPositions(Some(Join(lines, "\n"))) == PositionsFrom(lines, 1)
  {
    SplitJoin(lines);
    if |lines| > 1 {
      assert Join(lines, "\n")[0] == lines[0][0];
    }
    PositionsFromAgrees(lines, 1);
    assert Shift(AddedPositions(lines), 0) == AddedPositions(lines);
  }

  /** One step of `PositionsFrom` at line `k`. */
  lemma PositionsFromAt(lines: seq<string>, k: nat, first: nat)
    requires k < |lines|
    ensures PositionsFrom(lines[k..], first)
         == (if IsAddedLine(lines[k]) then [first] else []) + PositionsFrom(lines[k + 1..], first + 1)
  {
    assert lines[k..][1..] == lines[k + 1..];
  }

  const SimplePatch: seq<string> := ["@@ -1,3 +1,6 @@", " function test() {", "-  console.log('old');",
    "+  console.log('new');", "+  console.log('added line 1');", "+  console.log('added line 2');", " }"]

  lemma SimplePatchLines()
    ensures |SimplePatch| == 7 && SimplePatch[0] != ""
    ensures forall k :: 0 <= k < |SimplePatch| ==> NoLineFeed(SimplePatch[k])
    ensures !IsAddedLine(SimplePatch[0]) && !IsAddedLine(SimplePatch[1]) && !IsAddedLine(SimplePatch[2])
    ensures IsAddedLine(SimplePatch[3]) && IsAddedLine(SimplePatch[4]) && IsAddedLine(SimplePatch[5])
    ensures !IsAddedLine(SimplePatch[6])
  {
    SimplePatchNoLineFeed();
  }

  lemma SimplePatchNoLineFeed()
    ensures forall k :: 0 <= k < |SimplePatch| ==> NoLineFeed(SimplePatch[k])
  {
    var l := SimplePatch;
    assert NoLineFeed(l[0]) && NoLineFeed(l[1]) && NoLineFeed(l[2]);
    assert NoLineFeed(l[3]) && NoLineFeed(l[4]);
    assert NoLineFeed(l[5]) && NoLineFeed(l[6]);
  }

  /** A hunk with one deletion and three additions. */
  lemma SimplePatchPositions()
    ensures CommentPositions(Some(Join(SimplePatch, "\n"))) == [4, 5, 6]
  {
    var l := SimplePatch;
    SimplePatchLines();
    PositionsOfLines(l);
    assert l[7..] == [];
    PositionsFromAt(l, 6, 7);
    PositionsFromAt(l, 5, 6);
    PositionsFromAt(l, 4, 5);
    PositionsFromAt(l, 3, 4);
    PositionsFromAt(l, 2, 3);
    PositionsFromAt(l, 1, 2);
    PositionsFromAt(l, 0, 1);
    assert l[0..] == l;
  }

  const HeaderPatch: seq<string> := ["diff --git a/test.txt b/test.txt", "index 1234567..abcdefg 100644",
    "--- a/test.txt", "+++ b/test.txt", "@@ -1,2 +1,3 @@", " existing line", "+new line"]

  lemma HeaderPatchLines()
    ensures |HeaderPatch| == 7 && HeaderPatch[0] != ""
    ensures forall k :: 0 <= k < |HeaderPatch| ==> NoLineFeed(HeaderPatch[k])
    ensures forall k :: 0 <= k < 6 ==> !IsAddedLine(HeaderPatch[k])
    ensures IsAddedLine(HeaderPatch[6])
  {
    var l := HeaderPatch;
    HeaderPatchNoLineFeed();
    assert !IsAddedLine(l[0]) && !IsAddedLine(l[1]) && !IsAddedLine(l[2]);
    assert !IsAddedLine(l[3]) && !IsAddedLine(l[4]) && !IsAddedLine(l[5]);
  }

  lemma HeaderPatchNoLineFeed()
    ensures forall k :: 0 <= k < |HeaderPatch| ==> NoLineFeed(HeaderPatch[k])
  {
    var l := HeaderPatch;
    assert NoLineFeed(l[0]) && NoLineFeed(l[1]) && NoLineFeed(l[2]);
    assert NoLineFeed(l[3]) && NoLineFeed(l[4]);
    assert NoLineFeed(l[5]) && NoLineFeed(l[6]);
  }

  /** File headers, `+++` included, are counted but never reported. */
  lemma HeaderPatchPositions()
    ensures CommentPositions(Some(Join(HeaderPatch, "\n"))) == [7]
  {
    var l := HeaderPatch;
    HeaderPatchLines();
    PositionsOfLines(l);
    assert l[7..] == [];
    PositionsFromAt(l, 6, 7);
    assert PositionsFrom(l[6..], 7) == [7];
    PositionsFromAt(l, 5, 6);
    PositionsFromAt(l, 4, 5);
    PositionsFromAt(l, 3, 4);
    PositionsFromAt(l, 2, 3);
    PositionsFromAt(l, 1, 2);
    PositionsFromAt(l, 0, 1);
    assert l[0..] == l;
  }

  const PlusPlusPatch: seq<string> := ["@@ -1,1 +1,2 @@", " existing", "++"]
  const CrLfPatch: seq<string> := ["@@ -1,2 +1,3 @@\r", " existing\r", "+added\r", " context"]

  lemma EdgePatchLines()
    ensures |PlusPlusPatch| == 3 && PlusPlusPatch[0] != ""
    ensures forall k :: 0 <= k < |PlusPlusPatch| ==> NoLineFeed(PlusPlusPatch[k])
    ensures !IsAddedLine(PlusPlusPatch[0]) && !IsAddedLine(PlusPlusPatch[1]) && IsAddedLine(PlusPlusPatch[2])
    ensures |CrLfPatch| == 4 && CrLfPatch[0] != ""
    ensures forall k :: 0 <= k < |CrLfPatch| ==> NoLineFeed(CrLfPatch[k])
    ensures !IsAddedLine(CrLfPatch[0]) && !IsAddedLine(CrLfPatch[1]) && IsAddedLine(CrLfPatch[2])
    ensures !IsAddedLine(CrLfPatch[3])
  {
    var l := PlusPlusPatch;
    assert NoLineFeed(l[0]) && NoLineFeed(l[1]) && NoLineFeed(l[2]);
    var c := CrLfPatch;
    assert NoLineFeed(c[0]) && NoLineFeed(c[1]) && NoLineFeed(c[2]) && NoLineFeed(c[3]);
  }

  /** A line `++` is an added line; CRLF line ends do not shift positions. */
  lemma EdgePatchPositions()
    ensures CommentPositions(Some(Join(PlusPlusPatch, "\n"))) == [3]
    ensures CommentPositions(Some(Join(CrLfPatch, "\n"))) == [3]
  {
    EdgePatchLines();
    var l := PlusPlusPatch;
    PositionsOfLines(l);
    assert l[3..] == [];
    PositionsFromAt(l, 2, 3);
    PositionsFromAt(l, 1, 2);
    PositionsFromAt(l, 0, 1);
    assert l[0..] == l;
    var c := CrLfPatch;
    PositionsOfLines(c);
    assert c[4..] == [];
    PositionsFromAt(c, 3, 4);
    PositionsFromAt(c, 2, 3);
    PositionsFromAt(c, 1, 2);
    PositionsFromAt(c, 0, 1);
    assert c[0..] == c;
  }

  /** The `FileChangeInfo` built for one file. */
  function Enrich(file: PullRequestFile): FileChangeInfo
  {
    FileChangeInfo(file.filename, file.status, file.additions, file.deletions, file.changes,
                   file.patch, CommentPositions(file.patch))
  }

  /** `enrichFileChanges`: same files in the same order, the six fields
      copied, and the commentable positions of each patch attached. */
  function EnrichFileChanges(files: seq<PullRequestFile>): (r: seq<FileChangeInfo>)
    ensures |r| == |files|
    ensures forall i :: 0 <= i < |files| ==>
      && r[i].filename == files[i].filename && r[i].status == files[i].status
      && r[i].additions == files[i].additions && r[i].deletions == files[i].deletions
      && r[i].changes == files[i].changes && r[i].patch == files[i].patch
      && r[i].positions == CommentPositions(files[i].patch)
  {
    seq(|files|, i requires 0 <= i < |files| => Enrich(files[i]))
  }

  function PositionStrings(ps: seq<nat>): (r: seq<string>)
    ensures |r| == |ps|
    ensures forall i :: 0 <= i < |ps| ==> r[i] == NatToString(ps[i])
  {
    seq(|ps|, i requires 0 <= i < |ps| => NatToString(ps[i]))
  }

  lemma {:induction false} JoinStartsWithFirst(parts: seq<string>, sep: string)
    requires |parts| > 0 && |parts[0]| > 0
    ensures |Join(parts, sep)| > 0 && Join(parts, sep)[0] == parts[0][0]
  {
  }

  lemma JoinedPositionsStartWithDigit(ps: seq<nat>)
    ensures ps != [] ==> |Join(PositionStrings(ps), ", ")| > 0 && '0' <= Join(PositionStrings(ps), ", ")[0] <= '9'
  {
    if ps != [] {
      JoinStartsWithFirst(PositionStrings(ps), ", ");
    }
  }

  /** `positions.join(', ') || 'None'`: `None` exactly when there are no positions. */
  function PositionsText(ps: seq<nat>): (r: string)
    ensures r == "None" <==> ps == []
  {
    var joined := Join(PositionStrings(ps), ", ");
    JoinedPositionsStartWithDigit(ps);
    if joined == "" then "None" else joined
  }

  /** The patch part of a file entry: present only for a non-empty patch. */
  function PatchSection(patch: Option<string>): (r: string)
    ensures r == "" <==> patch == None || patch == Some("")
  {
    if patch.Some? && patch.value != "" then "\nPatch:\n" + patch.value else ""
  }

  /** The six lines of one file's entry in `formatFileChanges`. */
  function FileBlockLines(f: FileChangeInfo): (r: seq<string>)
    ensures |r| == 6 && r[0] == "File: " + f.filename && r[5] == "---"
    ensures r[3] == "Comment Positions: None" <==> f.positions == []
    ensures r[4] == "" <==> f.patch == None || f.patch == Some("")
  {
    var r := ["File: " + f.filename,
              "Status: " + f.status,
              "Changes: +" + IntToString(f.additions) + "/-" + IntToString(f.deletions)
                + " (total: " + IntToString(f.changes) + ")",
              "Comment Positions: " + PositionsText(f.positions),
              PatchSection(f.patch),
              "---"];
    assert r[3] == "Comment Positions: None" ==> r[3][|"Comment Positions: "|..] == "None";
    r
  }

  function FileBlock(f: FileChangeInfo): string
  {
    Join(FileBlockLines(f), "\n")
  }

  function FileBlocks(files: seq<FileChangeInfo>): (r: seq<string>)
    ensures |r| == |files|
    ensures forall i :: 0 <= i < |files| ==> r[i] == FileBlock(files[i])
  {
    seq(|files|, i requires 0 <= i < |files| => FileBlock(files[i]))
  }

  /** `formatFileChanges`: the PR header, then one block per file, the
      blocks separated by a blank line. */
  function FormatFileChanges(files: seq<FileChangeInfo>, prNumber: int): (r: string)
    ensures |files| == 0 ==> r == "Changes in PR #" + IntToString(prNumber) + ":\n\n"
    ensures |files| == 1 ==> r == "Changes in PR #" + IntToString(prNumber) + ":\n\n" + FileBlock(files[0])
  {
    "Changes in PR #" + IntToString(prNumber) + ":\n\n" + Join(FileBlocks(files), "\n\n")
  }

  /** Each further file is appended after a blank line. */
  lemma FormatFileChangesAppend(files: seq<FileChangeInfo>, f: FileChangeInfo, prNumber: int)
    requires |files| > 0
    ensures FormatFileChanges(files + [f], prNumber) == FormatFileChanges(files, prNumber) + "\n\n" + FileBlock(f)
  {
    var header := "Changes in PR #" + IntToString(prNumber) + ":\n\n";
    var blocks := FileBlocks(files);
    assert FileBlocks(files + [f]) == blocks + [FileBlock(f)];
    JoinAppend(blocks, FileBlock(f), "\n\n");
    calc {
      FormatFileChanges(files + [f], prNumber);
      header + (Join(blocks, "\n\n") + "\n\n" + FileBlock(f));
      { AppendAssoc(Join(blocks, "\n\n"), "\n\n", FileBlock(f));
        AppendAssoc(header, Join(blocks, "\n\n"), "\n\n" + FileBlock(f)); }
      header + Join(blocks, "\n\n") + ("\n\n" + FileBlock(f));
      { AppendAssoc(header + Join(blocks, "\n\n"), "\n\n", FileBlock(f)); }
      FormatFileChanges(files, prNumber) + "\n\n" + FileBlock(f);
    }
  }

  /** A thrown value as `createErrorMessage` sees it: an `Error` (its
      `message` is used) or anything else (its `String(...)` form is used). */
  datatype Thrown = ErrorValue(message: string) | OtherValue(shown: string)

  /** `createErrorMessage`. */
  function CreateErrorMessage(operation: string, error: Thrown): (r: string)
    ensures StartsWith(r, "Failed to " + operation + ": ")
    ensures error.ErrorValue? ==> r[|"Failed to " + operation + ": "|..] == error.message
    ensures error.OtherValue? ==> r[|"Failed to " + operation + ": "|..] == error.shown
  {
    var message := match error case ErrorValue(m) => m case OtherValue(s) => s;
    var prefix := "Failed to " + operation + ": ";
    assert (prefix + message)[..|prefix|] == prefix;
    prefix + message
  }

  /** `new Date(x).toLocaleString()`: locale- and clock-dependent, so given. */
  type DateRenderer = Option<Json> -> string

  /** The five lines of one conversation comment. */
  function IssueCommentText(c: Json, date: DateRenderer): (r: Result<string>)
    ensures r.Ok? <==> Path(c, "user", "login").Ok?
    ensures r.Err? ==> r.msg == Path(c, "user", "login").msg
  {
    match Path(c, "user", "login")
    case Err(m) => Err(m)
    case Ok(login) =>
      var created := Prop(Some(c), "created_at").value;
      var body := Prop(Some(c), "body").value;
      var url := Prop(Some(c), "html_url").value;
      Ok(Join(["Comment by: " + Display(login), "Date: " + date(created), Display(body),
               "URL: " + Display(url), "---"], "\n"))
  }

  /** The six lines of one code-review comment; the position is shown only
      when it is truthy. */
  function ReviewCommentText(c: Json, date: DateRenderer): (r: Result<string>)
    ensures r.Ok? <==> Path(c, "user", "login").Ok?
    ensures r.Err? ==> r.msg == Path(c, "user", "login").msg
  {
    match Path(c, "user", "login")
    case Err(m) => Err(m)
    case Ok(login) =>
      var created := Prop(Some(c), "created_at").value;
      var path := Prop(Some(c), "path").value;
      var position := Prop(Some(c), "position").value;
      var body := Prop(Some(c), "body").value;
      var url := Prop(Some(c), "html_url").value;
      var line := if TruthyValue(position) then " (line " + Display(position) + ")" else "";
      Ok(Join(["Comment by: " + Display(login), "Date: " + date(created), "File: " + Display(path) + line,
               Display(body), "URL: " + Display(url), "---"], "\n"))
  }

  /** `comments.map(...)`: the first comment whose rendering throws aborts it. */
  function CommentTexts(cs: seq<Json>, review: bool, date: DateRenderer): (r: Result<seq<string>>)
    ensures r.Ok? ==> |r.value| == |cs|
  {
    MapResult(c => if review then ReviewCommentText(c, date) else IssueCommentText(c, date), cs)
  }
  /** Rendering the comments succeeds iff every comment renders, each into its own text, in order. */
  lemma CommentTextsEach(cs: seq<Json>, review: bool, date: DateRenderer)
    ensures CommentTexts(cs, review, date).Ok? <==>
      forall i :: 0 <= i < |cs| ==> (if review then ReviewCommentText(cs[i], date) else IssueCommentText(cs[i], date)).Ok?
    ensures CommentTexts(cs, review, date).Ok? ==> forall i :: 0 <= i < |cs| ==>
      (if review then ReviewCommentText(cs[i], date) else IssueCommentText(cs[i], date)) == Ok(CommentTexts(cs, review, date).value[i])
  {
    MapResultEach(c => if review then ReviewCommentText(c, date) else IssueCommentText(c, date), cs);
  }


  const ConversationHeading := "## Conversation Comments\n\n"
  const ReviewHeading := "## Code Review Comments\n\n"

  function ConversationSection(texts: seq<string>): string
  {
    ConversationHeading + (Join(texts, "\n") + "\n\n")
  }

  function ReviewSection(texts: seq<string>): string
  {
    ReviewHeading + Join(texts, "\n")
  }

  /** `formatComments` (structure only): a "none found" line when both lists
      are empty, otherwise a header followed by the conversation section and
      the code-review section, each present only when its list is non-empty. */
  function FormatComments(issueComments: seq<Json>, reviewComments: seq<Json>, prNumber: int, date: DateRenderer)
    : (r: Result<string>)
    ensures issueComments == [] && reviewComments == [] ==> r == Ok("No comments found for PR #" + IntToString(prNumber))
    ensures (issueComments != [] || reviewComments != []) && r.Ok? ==>
      StartsWith(r.value, "Comments for PR #" + IntToString(prNumber) + ":\n\n")
    ensures r.Err? <==> CommentTexts(issueComments, false, date).Err? || CommentTexts(reviewComments, true, date).Err?
    ensures CommentTexts(issueComments, false, date).Err? ==> r == Err(CommentTexts(issueComments, false, date).msg)
    ensures CommentTexts(issueComments, false, date).Ok? && CommentTexts(reviewComments, true, date).Err? ==>
      r == Err(CommentTexts(reviewComments, true, date).msg)
  {
    if issueComments == [] && reviewComments == [] then
      Ok("No comments found for PR #" + IntToString(prNumber))
    else
      match CommentTexts(issueComments, false, date)
      case Err(m) => Err(m)
      case Ok(issueTexts) =>
        match CommentTexts(reviewComments, true, date)
        case Err(m) => Err(m)
        case Ok(reviewTexts) =>
          var header := "Comments for PR #" + IntToString(prNumber) + ":\n\n";
          var conversation := if issueComments != [] then ConversationSection(issueTexts) else "";
          var review := if reviewComments != [] then ReviewSection(reviewTexts) else "";
          assert (header + (conversation + review))[..|header|] == header;
          Ok(header + (conversation + review))
  }

  /** `formatComments` as the source builds it, appending section after
      section to the text; it yields exactly `FormatComments`. */
  method BuildComments(issueComments: seq<Json>, reviewComments: seq<Json>, prNumber: int, date: DateRenderer)
    returns (r: Result<string>)
    ensures r == FormatComments(issueComments, reviewComments, prNumber, date)
  {
    if |issueComments| == 0 && |reviewComments| == 0 {
      return Ok("No comments found for PR #" + IntToString(prNumber));
    }
    var header := "Comments for PR #" + IntToString(prNumber) + ":\n\n";
    var content := header;
    ghost var conversation := "";
    var issueTexts := CommentTexts(issueComments, false, date);
    if |issueComments| > 0 {
      content := content + ConversationHeading;
      if issueTexts.Err? {
        return Err(issueTexts.msg);
      }
      content := content + (Join(issueTexts.value, "\n") + "\n\n");
      conversation := ConversationSection(issueTexts.value);
      AppendAssoc(header, ConversationHeading, Join(issueTexts.value, "\n") + "\n\n");
    } else {
      assert content == header + conversation;
    }
    ghost var review := "";
    var reviewTexts := CommentTexts(reviewComments, true, date);
    if |reviewComments| > 0 {
      content := content + ReviewHeading;
      if reviewTexts.Err? {
        return Err(reviewTexts.msg);
      }
      content := content + Join(reviewTexts.value, "\n");
      review := ReviewSection(reviewTexts.value);
      AppendAssoc(header + conversation, ReviewHeading, Join(reviewTexts.value, "\n"));
    } else {
      assert content == header + conversation + review;
    }
    AppendAssoc(header, conversation, review);
    r := Ok(content);
    FormatCommentsSections(issueComments, reviewComments, prNumber, date);
  }

  lemma AppendAssocNat(a: seq<nat>, b: seq<nat>, c: seq<nat>)
    ensures a + (b + c) == a + b + c
  {
  }

  lemma AppendAssoc(a: string, b: string, c: string)
    ensures a + b + c == a + (b + c)
  {
  }

  /** `FormatComments` once both lists render: the header, then each
      non-empty section. */
  lemma FormatCommentsSections(issueComments: seq<Json>, reviewComments: seq<Json>, prNumber: int, date: DateRenderer)
    requires issueComments != [] || reviewComments != []
    ensures CommentTexts(issueComments, false, date).Ok? && CommentTexts(reviewComments, true, date).Ok? ==>
      FormatComments(issueComments, reviewComments, prNumber, date)
         == Ok("Comments for PR #" + IntToString(prNumber) + ":\n\n"
               + ((if issueComments != [] then ConversationSection(CommentTexts(issueComments, false, date).value) else "")
                  + (if reviewComments != [] then ReviewSection(CommentTexts(reviewComments, true, date).value) else "")))
  {
  }

  /** `pr.requested_reviewers?.length || 0`. */
  function ReviewerCount(v: Option<Json>): (n: nat)
    ensures v.Some? && v.value.JArr? ==> n == |v.value.items|
    ensures v.None? || v == Some(JNull) ==> n == 0
  {
    match v
    case Some(JArr(items)) => |items|
    case Some(JStr(s)) => |s|
    case _ => 0
  }

  /** The six lines of one pull request in `formatPullRequestList`. */
  function PullRequestText(pr: Json, date: DateRenderer): (r: Result<string>)
    ensures pr.JNull? ==> r == Err(NullAccessMessage("null", "number"))
    ensures r.Ok? <==> Path(pr, "user", "login").Ok? && Path(pr, "head", "label").Ok? && Path(pr, "base", "label").Ok?
    ensures !pr.JNull? && Path(pr, "user", "login").Err? ==> r == Err(Path(pr, "user", "login").msg)
    ensures Path(pr, "user", "login").Ok? && Path(pr, "head", "label").Err? ==> r == Err(Path(pr, "head", "label").msg)
    ensures Path(pr, "user", "login").Ok? && Path(pr, "head", "label").Ok? && Path(pr, "base", "label").Err? ==>
      r == Err(Path(pr, "base", "label").msg)
  {
    if pr.JNull? then Err(NullAccessMessage("null", "number")) else
    match (Path(pr, "user", "login"), Path(pr, "head", "label"), Path(pr, "base", "label"))
    case (Err(m), _, _) => Err(m)
    case (Ok(_), Err(m), _) => Err(m)
    case (Ok(_), Ok(_), Err(m)) => Err(m)
    case (Ok(login), Ok(headLabel), Ok(baseLabel)) =>
      var number := Prop(Some(pr), "number").value;
      var title := Prop(Some(pr), "title").value;
      var created := Prop(Some(pr), "created_at").value;
      var reviewers := Prop(Some(pr), "requested_reviewers").value;
      var url := Prop(Some(pr), "html_url").value;
      Ok(Join(["#" + Display(number) + ": " + Display(title),
               "Created by: " + Display(login) + " on " + date(created),
               Display(headLabel) + " → " + Display(baseLabel),
               NatToString(ReviewerCount(reviewers)) + " reviewers requested",
               "URL: " + Display(url),
               "---"], "\n"))
  }

  /** `pullRequests.map(...)`: the first pull request whose rendering throws aborts it. */
  function PullRequestTexts(prs: seq<Json>, date: DateRenderer): (r: Result<seq<string>>)
    ensures r.Ok? ==> |r.value| == |prs|
  {
    MapResult(pr => PullRequestText(pr, date), prs)
  }
  /** Rendering the list succeeds iff every pull request renders, each into its own text, in order. */
  lemma PullRequestTextsEach(prs: seq<Json>, date: DateRenderer)
    ensures PullRequestTexts(prs, date).Ok? <==> forall i :: 0 <= i < |prs| ==> PullRequestText(prs[i], date).Ok?
    ensures PullRequestTexts(prs, date).Ok? ==>
      forall i :: 0 <= i < |prs| ==> PullRequestText(prs[i], date) == Ok(PullRequestTexts(prs, date).value[i])
  {
    MapResultEach(pr => PullRequestText(pr, date), prs);
  }


  /** `formatPullRequestList` (structure only). */
  function FormatPullRequestList(prs: seq<Json>, owner: string, repo: string, date: DateRenderer)
    : (r: Result<string>)
    ensures prs == [] ==> r == Ok("No open pull requests found in " + owner + "/" + repo)
    ensures prs != [] && r.Ok? ==> StartsWith(r.value, "Open Pull Requests in " + owner + "/" + repo + ":\n\n")
    ensures prs != [] ==> (r.Err? <==> PullRequestTexts(prs, date).Err?)
  {
    if prs == [] then Ok("No open pull requests found in " + owner + "/" + repo)
    else
      match PullRequestTexts(prs, date)
      case Err(m) => Err(m)
      case Ok(ts) =>
        var header := "Open Pull Requests in " + owner + "/" + repo + ":\n\n";
        assert (header + Join(ts, "\n"))[..|header|] == header;
        Ok(header + Join(ts, "\n"))
  }
}
