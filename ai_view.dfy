/**
 * The AI summary screen: the signed-in user's documents are decoded into
 * tasks, one line is written per task, the lines are joined under a fixed
 * instruction, the prompt is wrapped in the generation request's body, and
 * the reply's first text part becomes the screen's text.
 */
module AiSummary {
  import opened Wrappers
  import opened Credentials
  import opened Tasks
  import opened TaskStore

  const LoginRequiredMessage: string := "❌ 請先登入"
  const QueryErrorPrefix: string := "❌ 錯誤："
  const NoSnapshotMessage: string := "❌ 無法取得任務資料"
  const NoResponseMessage: string := "❌ 無法取得 AI 回應"
  const PromptPrefix: string := "以下是今天的任務清單，請幫我總結今天的工作計畫與建議："

  // ---------------------------------------------------------------------
  // Decoding the documents

  /** The seven fields the summary reads, each with its type; "id" is not among them. */
  predicate HasSummaryFields(fields: map<string, Value>) {
    && HasString(fields, TitleKey) && HasString(fields, CategoryKey)
    && HasString(fields, StateCategoryKey)
    && HourKey in fields && fields[HourKey].IntegerValue?
    && DeadlineKey in fields && fields[DeadlineKey].TimestampValue?
    && HasString(fields, NoteKey) && HasString(fields, UserIdKey)
  }

  /** The guard chain of one document: a task with the new `freshId`, or nothing. */
  function DecodeForSummary(fields: map<string, Value>, freshId: Uuid): (r: Option<TaskItem>)
    ensures r.Some? <==> HasSummaryFields(fields)
    ensures r.Some? ==> r.value.id == freshId && fields[UserIdKey] == StringValue(r.value.userId)
  {
    if HasSummaryFields(fields) then
      Some(TaskItem(freshId, fields[TitleKey].s, fields[CategoryKey].s, fields[StateCategoryKey].s,
                    fields[HourKey].n, fields[DeadlineKey].t, fields[NoteKey].s, fields[UserIdKey].s))
    else
      None
  }

  /**
   * The summary reads every document the home screen reads, to the same
   * task apart from the id, and also documents whose "id" is missing or
   * malformed, which make the home screen's decode fail.
   */
  lemma SummaryDecodeIsLaxer(fields: map<string, Value>, freshId: Uuid)
    ensures DecodeTask(fields).Some? ==>
              DecodeForSummary(fields, freshId) == Some(DecodeTask(fields).value.(id := freshId))
    ensures IdKey !in fields ==> DecodeTask(fields).None?
  {
  }

  /**
   * `documents.compactMap { … }`: the tasks of the documents that pass the
   * guard chain, in query order; `freshIds[k]` is the UUID a task built from
   * the k-th document receives.
   */
  function CompactDecode(docs: seq<Document>, freshIds: seq<Uuid>): (r: seq<TaskItem>)
    requires |freshIds| == |docs|
    ensures |r| <= |docs|
    ensures |r| == |docs| <==> forall k | 0 <= k < |docs| :: HasSummaryFields(docs[k].fields)
  {
    if docs == [] then []
    else
      var rest := CompactDecode(docs[1..], freshIds[1..]);
      assert forall k | 1 <= k < |docs| :: docs[1..][k - 1] == docs[k];
      match DecodeForSummary(docs[0].fields, freshIds[0])
      case Some(t) => [t] + rest
      case None => rest
  }

  /** Decoding two runs of documents is decoding each, in order. */
  lemma {:induction false} CompactDecodeConcat(a: seq<Document>, ia: seq<Uuid>, b: seq<Document>, ib: seq<Uuid>)
    requires |ia| == |a| && |ib| == |b|
    ensures CompactDecode(a + b, ia + ib) == CompactDecode(a, ia) + CompactDecode(b, ib)
  {
    if a == [] {
      assert a + b == b && ia + ib == ib;
    } else {
      assert (a + b)[0] == a[0] && (a + b)[1..] == a[1..] + b;
      assert (ia + ib)[0] == ia[0] && (ia + ib)[1..] == ia[1..] + ib;
      CompactDecodeConcat(a[1..], ia[1..], b, ib);
    }
  }

  /** Documents that all belong to `uid` decode to tasks that all belong to `uid`. */
  lemma {:induction false} CompactDecodeKeepsOwner(docs: seq<Document>, freshIds: seq<Uuid>, uid: string)
    requires |freshIds| == |docs|
    requires forall d | d in docs :: OwnedBy(d, uid)
    ensures forall t | t in CompactDecode(docs, freshIds) :: t.userId == uid
  {
    if docs != [] {
      assert docs[0] in docs;
      assert forall d | d in docs[1..] :: d in docs;
      CompactDecodeKeepsOwner(docs[1..], freshIds[1..], uid);
    }
  }

  /** Every task summarised for `uid` belongs to `uid`. */
  lemma SummarisedTasksBelongToOwner(docs: seq<Document>, freshIds: seq<Uuid>, uid: string)
    requires |freshIds| >= |docs|
    ensures var documents := Query(docs, UserIdKey, StringValue(uid));
            forall t | t in CompactDecode(documents, freshIds[..|documents|]) :: t.userId == uid
  {
    var documents := Query(docs, UserIdKey, StringValue(uid));
    QueryMembers(docs, UserIdKey, StringValue(uid));
    CompactDecodeKeepsOwner(documents, freshIds[..|documents|], uid);
  }

  /** A single document yields its task or is silently dropped. */
  lemma CompactDecodeOne(d: Document, u: Uuid)
    ensures HasSummaryFields(d.fields) ==> CompactDecode([d], [u]) == [DecodeForSummary(d.fields, u).value]
    ensures !HasSummaryFields(d.fields) ==> CompactDecode([d], [u]) == []
  {
    assert [d][1..] == [] && [u][1..] == [];
  }

  // ---------------------------------------------------------------------
  // The digest

  function DigitChar(d: nat): (c: char)
    requires d < 10
    ensures IsAsciiDigit(c)
  {
    ('0' as int + d) as char
  }

  /** Decimal digits of `n`, most significant first. */
  function NatToString(n: nat): (s: string)
    ensures |s| > 0 && forall k | 0 <= k < |s| :: IsAsciiDigit(s[k])
  {
    if n < 10 then [DigitChar(n)] else NatToString(n / 10) + [DigitChar(n % 10)]
  }

  /** The number a string of decimal digits denotes. */
  function DigitsValue(s: string): nat
    requires forall k | 0 <= k < |s| :: IsAsciiDigit(s[k])
  {
    if s == [] then 0
    else
      assert IsAsciiDigit(s[|s| - 1]);
      DigitsValue(s[..|s| - 1]) * 10 + (s[|s| - 1] as int - '0' as int)
  }

  /** The digits written for `n` denote `n`. */
  lemma {:induction false} NatToStringValue(n: nat)
    ensures DigitsValue(NatToString(n)) == n
  {
    if n >= 10 {
      NatToStringValue(n / 10);
      var s := NatToString(n);
      assert s[..|s| - 1] == NatToString(n / 10);
    }
  }

  /** String interpolation of an `Int`: a minus sign for negatives, then the digits. */
  function IntToString(n: int): (s: string)
    ensures |s| > 0 && (n < 0 <==> s[0] == '-')
    ensures n < 0 ==> s[1..] == NatToString(-n)
    ensures n >= 0 ==> s == NatToString(n)
    ensures '\n' !in s
  {
    if n < 0 then "-" + NatToString(-n) else NatToString(n)
  }

  /**
   * One line of the digest; `describe` is the interpolation of a date, its
   * fixed description of the instant in UTC.
   */
  function SummaryLine(t: TaskItem, describe: Date -> string): string {
    "工作名稱：" + t.title + "，分類：" + t.category + "，狀態分類：" + t.stateCategory
      + "，預估時數：" + IntToString(t.hour) + "，截止：" + describe(t.deadline) + "，備註：" + t.note
  }

  /** The line holds no line break unless a task field or the date text does. */
  lemma SummaryLineIsOneLine(t: TaskItem, describe: Date -> string)
    requires '\n' !in t.title && '\n' !in t.category && '\n' !in t.stateCategory
    requires '\n' !in describe(t.deadline) && '\n' !in t.note
    ensures '\n' !in SummaryLine(t, describe)
  {
    var s := "工作名稱：" + t.title;
    s := NoBreakAppend(s, "，分類：");
    s := NoBreakAppend(s, t.category);
    s := NoBreakAppend(s, "，狀態分類：");
    s := NoBreakAppend(s, t.stateCategory);
    s := NoBreakAppend(s, "，預估時數：");
    s := NoBreakAppend(s, IntToString(t.hour));
    s := NoBreakAppend(s, "，截止：");
    s := NoBreakAppend(s, describe(t.deadline));
    s := NoBreakAppend(s, "，備註：");
    s := NoBreakAppend(s, t.note);
    assert s == SummaryLine(t, describe);
  }

  /** Appending text without a line break to text without one gives text without one. */
  lemma NoBreakAppend(a: string, b: string) returns (ab: string)
    requires '\n' !in a && '\n' !in b
    ensures ab == a + b && '\n' !in ab
  {
    ab := a + b;
  }

  /** `joined(separator: "\n")`: no separator before the first or after the last line. */
  function JoinLines(lines: seq<string>): (s: string)
    ensures lines == [] ==> s == ""
    ensures |lines| == 1 ==> s == lines[0]
  {
    if |lines| == 0 then ""
    else if |lines| == 1 then lines[0]
    else lines[0] + "\n" + JoinLines(lines[1..])
  }

  /** `components(separatedBy: "\n")`: the text between line breaks. */
  function SplitLines(s: string): (lines: seq<string>)
    ensures |lines| > 0
    decreases |s|
  {
    match FirstIndexOf(s, '\n')
    case None => [s]
    case Some(i) => [s[..i]] + SplitLines(s[i + 1..])
  }

  /** Splitting at the first break of `a + "\n" + b` gives `a` and the split of `b`. */
  lemma SplitAfterLine(a: string, b: string)
    requires '\n' !in a
    ensures SplitLines(a + "\n" + b) == [a] + SplitLines(b)
  {
    var s := a + "\n" + b;
    assert s[|a|] == '\n';
    assert forall k | 0 <= k < |a| :: s[k] == a[k];
    var i := FirstIndexOf(s, '\n');
    assert i.Some? && i.value <= |a|;
    assert i.value == |a|;
    assert s[..|a|] == a && s[|a| + 1..] == b;
  }

  /** Lines without breaks come back from their join one by one. */
  lemma {:induction false} SplitJoinRoundTrip(lines: seq<string>)
    requires lines != []
    requires forall k | 0 <= k < |lines| :: '\n' !in lines[k]
    ensures SplitLines(JoinLines(lines)) == lines
  {
    if |lines| == 1 {
      assert FirstIndexOf(lines[0], '\n').None?;
    } else {
      SplitJoinRoundTrip(lines[1..]);
      SplitAfterLine(lines[0], JoinLines(lines[1..]));
    }
  }

  /** The lines of the digest, one per task. */
  function SummaryLines(tasks: seq<TaskItem>, describe: Date -> string): (lines: seq<string>)
    ensures |lines| == |tasks|
    ensures forall k | 0 <= k < |tasks| :: lines[k] == SummaryLine(tasks[k], describe)
  {
    seq(|tasks|, k requires 0 <= k < |tasks| => SummaryLine(tasks[k], describe))
  }

  /** `taskDescriptions`: the task lines joined by line breaks. */
  function Digest(tasks: seq<TaskItem>, describe: Date -> string): string {
    JoinLines(SummaryLines(tasks, describe))
  }

  /** No text field holds a line break. */
  predicate SingleLineFields(t: TaskItem, describe: Date -> string) {
    '\n' !in t.title && '\n' !in t.category && '\n' !in t.stateCategory
      && '\n' !in describe(t.deadline) && '\n' !in t.note
  }

  /**
   * The digest has one line per task, in order, when no text field holds a
   * line break; no tasks give the empty digest.
   */
  lemma DigestHasOneLinePerTask(tasks: seq<TaskItem>, describe: Date -> string)
    requires forall k | 0 <= k < |tasks| :: SingleLineFields(tasks[k], describe)
    ensures tasks == [] ==> Digest(tasks, describe) == ""
    ensures tasks != [] ==> SplitLines(Digest(tasks, describe)) == SummaryLines(tasks, describe)
  {
    var lines := SummaryLines(tasks, describe);
    forall k | 0 <= k < |lines|
      ensures '\n' !in lines[k]
    {
      SummaryLineIsOneLine(tasks[k], describe);
    }
    if tasks != [] {
      SplitJoinRoundTrip(lines);
    }
  }

  /** The prompt: the fixed instruction, a line break, then the digest. */
  function Prompt(digest: string): (p: string)
    ensures |p| == |PromptPrefix| + 1 + |digest|
    ensures p[..|PromptPrefix|] == PromptPrefix && p[|PromptPrefix|] == '\n' && p[|PromptPrefix| + 1..] == digest
  {
    PromptPrefix + "\n" + digest
  }

  /** The prompt's first line is the instruction; the digest's lines follow. */
  lemma PromptLines(digest: string)
    ensures SplitLines(Prompt(digest)) == [PromptPrefix] + SplitLines(digest)
  {
    SplitAfterLine(PromptPrefix, digest);
  }

  // ---------------------------------------------------------------------
  // The request and the reply

  /** A JSON value as `JSONSerialization` reads and writes it. */
  datatype Json =
    | JNull
    | JBool(b: bool)
    | JNumber(n: int)
    | JString(s: string)
    | JArray(items: seq<Json>)
    | JObject(members: map<string, Json>)

  /**
   * The text a request body carries: `contents[0].parts[0].text`, where
   * "contents" and "parts" are arrays and their first items objects.
   */
  function PromptOf(body: Json): Option<string> {
    if body.JObject? && "contents" in body.members then
      var contents := body.members["contents"];
      if contents.JArray? && |contents.items| > 0 && contents.items[0].JObject?
         && "parts" in contents.items[0].members then
        var parts := contents.items[0].members["parts"];
        if parts.JArray? && |parts.items| > 0 && parts.items[0].JObject?
           && "text" in parts.items[0].members && parts.items[0].members["text"].JString? then
          Some(parts.items[0].members["text"].s)
        else None
      else None
    else None
  }

  /**
   * The request body `{contents: [{parts: [{text: prompt}]}]}`: one content
   * holding one part, whose text reads back as the prompt.
   */
  function RequestBody(prompt: string): (body: Json)
    ensures body.JObject? && body.members.Keys == {"contents"}
    ensures var contents := body.members["contents"];
            && contents.JArray? && |contents.items| == 1
            && contents.items[0].JObject? && contents.items[0].members.Keys == {"parts"}
            && var parts := contents.items[0].members["parts"];
            && parts.JArray? && |parts.items| == 1
            && parts.items[0].JObject? && parts.items[0].members.Keys == {"text"}
    ensures PromptOf(body) == Some(prompt)
  {
    JObject(map["contents" := JArray([JObject(map["parts" := JArray([JObject(map["text" := JString(prompt)])])])])])
  }

  /** `as? [[String: Any]]`: an array all of whose items are objects. */
  function AsObjectArray(j: Json): (r: Option<seq<map<string, Json>>>)
    ensures r.Some? <==> j.JArray? && forall k | 0 <= k < |j.items| :: j.items[k].JObject?
    ensures r.Some? ==> |r.value| == |j.items| && forall k | 0 <= k < |j.items| :: j.items[k] == JObject(r.value[k])
  {
    if j.JArray? && forall k | 0 <= k < |j.items| :: j.items[k].JObject? then
      Some(seq(|j.items|, k requires 0 <= k < |j.items| => j.items[k].members))
    else
      None
  }

  /** `parts.first?["text"] as? String` */
  function FirstText(parts: seq<map<string, Json>>): Option<string> {
    if parts != [] && "text" in parts[0] && parts[0]["text"].JString? then Some(parts[0]["text"].s)
    else None
  }

  /** `candidates.first?["content"] as? [String: Any]`, then its "parts". */
  function FirstCandidateText(candidates: seq<map<string, Json>>): Option<string> {
    if candidates != [] && "content" in candidates[0] && candidates[0]["content"].JObject?
       && "parts" in candidates[0]["content"].members
    then
      match AsObjectArray(candidates[0]["content"].members["parts"])
      case None => None
      case Some(parts) => FirstText(parts)
    else
      None
  }

  /**
   * The reply holds `t` at `candidates[0].content.parts[0].text`: the body
   * is an object whose "candidates" is a non-empty array of objects, the
   * first of which has an object "content" whose "parts" is a non-empty
   * array of objects, the first of which maps "text" to the string `t`.
   */
  ghost predicate ReplyHoldsText(response: Option<Json>, t: string) {
    && response.Some? && response.value.JObject?
    && "candidates" in response.value.members
    && var candidates := response.value.members["candidates"];
    && candidates.JArray? && |candidates.items| > 0
    && (forall k | 0 <= k < |candidates.items| :: candidates.items[k].JObject?)
    && var first := candidates.items[0].members;
    && "content" in first && first["content"].JObject?
    && "parts" in first["content"].members
    && var parts := first["content"].members["parts"];
    && parts.JArray? && |parts.items| > 0
    && (forall k | 0 <= k < |parts.items| :: parts.items[k].JObject?)
    && "text" in parts.items[0].members && parts.items[0].members["text"] == JString(t)
  }

  /**
   * The reply's `candidates[0].content.parts[0].text`; `response` is the
   * parsed body, or nothing when there was no body or it did not parse.
   * Text comes out exactly when the reply holds it on that path; any
   * missing step, wrong type or empty array gives none.
   */
  function ExtractText(response: Option<Json>): (r: Option<string>)
    ensures forall t :: r == Some(t) <==> ReplyHoldsText(response, t)
  {
    if response.Some? && response.value.JObject? && "candidates" in response.value.members then
      match AsObjectArray(response.value.members["candidates"])
      case None => None
      case Some(candidates) => FirstCandidateText(candidates)
    else
      None
  }

  // ---------------------------------------------------------------------
  // The screen

  class SummaryScreen {
    var summaryText: string

    constructor ()
      ensures summaryText == ""
    {
      summaryText := "";
    }

    /**
     * `generateSummary()`, with its query's completion. `currentUserId` is the
     * signed-in user's id, `status` how the owner-scoped query came back,
     * `freshIds` the UUIDs of the tasks the guard chain builds, and `describe`
     * the interpolation of a date. `request` is the body sent to the model,
     * if one is sent.
     */
    method GenerateSummary(currentUserId: Option<string>, db: TaskCollection, status: QueryStatus,
                           freshIds: seq<Uuid>, describe: Date -> string) returns (request: Option<Json>)
      requires |freshIds| >= |db.docs|
      modifies this`summaryText
      ensures currentUserId.None? ==> request.None? && summaryText == LoginRequiredMessage
      ensures currentUserId.Some? && status.QueryFailed? ==>
                request.None? && summaryText == QueryErrorPrefix + status.description
      ensures currentUserId.Some? && status.NoSnapshot? ==> request.None? && summaryText == NoSnapshotMessage
      ensures currentUserId.Some? && status.Delivered? ==>
                var documents := Query(db.docs, UserIdKey, StringValue(currentUserId.value));
                var tasks := CompactDecode(documents, freshIds[..|documents|]);
                && request == Some(RequestBody(Prompt(Digest(tasks, describe))))
                && summaryText == old(summaryText)
    {
      match currentUserId
      case None =>
        summaryText := LoginRequiredMessage;
        request := None;
      case Some(uid) =>
        match status
        case QueryFailed(description) =>
          summaryText := QueryErrorPrefix + description;
          request := None;
        case NoSnapshot =>
          summaryText := NoSnapshotMessage;
          request := None;
        case Delivered =>
          var documents := Query(db.docs, UserIdKey, StringValue(uid));
          var tasks := CompactDecode(documents, freshIds[..|documents|]);
          var digest := Digest(tasks, describe);
          request := Some(RequestBody(Prompt(digest)));
    }

    /** The completion of the generation request. */
    method ResponseReceived(response: Option<Json>)
      modifies this`summaryText
      ensures ExtractText(response).Some? ==> summaryText == ExtractText(response).value
      ensures ExtractText(response).None? ==> summaryText == NoResponseMessage
    {
      match ExtractText(response)
      case Some(text) =>
        summaryText := text;
      case None =>
        summaryText := NoResponseMessage;
    }
  }
}
