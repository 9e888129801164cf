/** The chat transcript: the messages of the chat page and the pure list updates its
    handlers apply to them (`map` over the matching id, `findIndex` and `slice`). */
module Transcript {
  import opened Common
  import opened Attachments

  datatype Role = UserRole | AiRole

  datatype Segment = Segment(text: string, sourceIds: seq<string>)

  datatype Source = Source(id: string, title: string, url: string, snippet: string)

  /** `ChatMessage`. The optional boolean fields read as `false` when absent. */
  datatype Message = Message(
    id: string,
    role: Role,
    content: string,
    files: seq<Item>,
    thinkingSteps: Option<seq<string>>,
    showThinking: bool,
    lastThought: Option<string>,
    liked: bool,
    disliked: bool,
    verifiedSegments: Option<seq<Segment>>,
    sources: Option<seq<Source>>)

  // ---------------------------------------------------------------------------
  // The mocked generator's fixed texts

  const StepAnalyse: string := "사용자 요청 분석 중..."
  const StepSearch: string := "한밭대 데이터베이스 검색 중..."
  const StepCompose: string := "답변 구성 중..."
  const InitialSteps: seq<string> := [StepAnalyse, StepSearch]
  const FinalSteps: seq<string> := InitialSteps + [StepCompose]

  const SendReplyContent: string := "요청하신 내용을 면밀히 분석했습니다. 추가로 궁금한 점이 있으시다면 언제든지 말씀해 주세요."
  const SendReplyThought: string := "한밭대학교 데이터베이스를 조회하여 최신 정보를 기반으로 답변을 구성했습니다."
  const EditReplyContent: string := "수정하신 내용을 면밀히 분석했습니다. 새로운 정보를 바탕으로 답변 드립니다. 추가로 궁금한 점이 있으시다면 언제든지 말씀해 주세요."
  const EditReplyThought: string := "수정된 질문에 맞춰 한밭대학교 데이터베이스를 재조회하여 답변을 구성했습니다."
  const RegeneratingContent: string := "답변을 다시 생성하고 있습니다... (Mocking)"
  const RegeneratedContent: string := "요청하신 내용을 다시 분석하여 드리는 새로운 답변입니다. 한밭대학교의 최신 정보를 바탕으로 구성되었습니다."
  const RegeneratedThought: string := "최신 데이터베이스를 재검색하여 보다 정확한 결과를 도출했습니다."
  const Greeting: string := "안녕하세요, 한밭메이트입니다! 👋\n\n무엇을 도와드릴까요?"

  const CheckedSegments: seq<Segment> := [Segment("한밭대학교", ["s1"]), Segment("최신 정보를 바탕으로", ["s2"])]
  const CheckedSources: seq<Source> := [
    Source("s1", "한밭대학교 공식 홈페이지", "https://www.hanbat.ac.kr", "한밭대학교는 1927년에 설립된 국립 종합대학교입니다."),
    Source("s2", "학사공지 2024-12", "https://www.hanbat.ac.kr/notices/123", "2024학년도 학사 운영 지침 안내입니다.")]

  /** Which handler started a reply: `handleSend` or `triggerAIResponse` after an edit. */
  datatype ReplyKind = SendReply | EditReply

  // ---------------------------------------------------------------------------
  // Building messages

  function UserMessage(id: string, content: string, files: seq<Item>): Message {
    Message(id, UserRole, content, files, None, false, None, false, false, None, None)
  }

  function GreetingMessage(id: string): Message {
    Message(id, AiRole, Greeting, [], None, false, None, false, false, None, None)
  }

  /** The reply the generator appends at its last stage: the fixed text of its kind, the
      three thinking steps, kept folded. */
  function AiReply(id: string, kind: ReplyKind): (m: Message)
    ensures m.role == AiRole && m.thinkingSteps == Some(FinalSteps) && !m.showThinking
    ensures m.content == (if kind == SendReply then SendReplyContent else EditReplyContent)
    ensures !m.liked && !m.disliked && m.verifiedSegments.None? && m.sources.None?
  {
    Message(id, AiRole, if kind == SendReply then SendReplyContent else EditReplyContent, [],
            Some(FinalSteps), false, Some(if kind == SendReply then SendReplyThought else EditReplyThought),
            false, false, None, None)
  }

  // ---------------------------------------------------------------------------
  // Per-message updates applied by `prev.map(msg => msg.id === id ? ... : msg)`

  datatype Update = Like | Dislike | ToggleThinking | FinishRegenerate | FinishVerify

  function Apply(u: Update, m: Message): Message {
    match u
    case Like => m.(liked := !m.liked, disliked := false)
    case Dislike => m.(disliked := !m.disliked, liked := false)
    case ToggleThinking => m.(showThinking := !m.showThinking)
    case FinishRegenerate => m.(content := RegeneratedContent, lastThought := Some(RegeneratedThought))
    case FinishVerify => m.(verifiedSegments := Some(CheckedSegments), sources := Some(CheckedSources))
  }

  /** Only the fields each update names change; the id, the role and the files never do. */
  lemma {:induction false} ApplyChangesOnlyItsFields(u: Update, m: Message)
    ensures Apply(u, m).id == m.id && Apply(u, m).role == m.role && Apply(u, m).files == m.files
    ensures u in {Like, Dislike} ==> Apply(u, m) == m.(liked := Apply(u, m).liked, disliked := Apply(u, m).disliked)
    ensures u == Like ==> Apply(u, m).liked != m.liked && !Apply(u, m).disliked
    ensures u == Dislike ==> Apply(u, m).disliked != m.disliked && !Apply(u, m).liked
    ensures u == ToggleThinking ==> Apply(u, m) == m.(showThinking := !m.showThinking)
    ensures u == FinishRegenerate ==> Apply(u, m).verifiedSegments == m.verifiedSegments && Apply(u, m).liked == m.liked
  {
  }

  /** Toggling the thinking panel twice restores the message; liking twice restores the
      like flag and leaves the dislike flag cleared. */
  lemma {:induction false} TogglesInvolutive(m: Message)
    ensures Apply(ToggleThinking, Apply(ToggleThinking, m)) == m
    ensures Apply(Like, Apply(Like, m)) == m.(disliked := false)
    ensures Apply(Dislike, Apply(Dislike, m)) == m.(liked := false)
  {
  }

  /** `prev.map(msg => msg.id === id ? update(msg) : msg)`. */
  function MapWhere(ms: seq<Message>, id: string, u: Update): (r: seq<Message>)
    ensures |r| == |ms|
    ensures forall i :: 0 <= i < |ms| ==> r[i] == (if ms[i].id == id then Apply(u, ms[i]) else ms[i])
  {
    if ms == [] then []
    else
      var rest := MapWhere(ms[1..], id, u);
      var head := if ms[0].id == id then Apply(u, ms[0]) else ms[0];
      MapWhereStep(ms, id, u, head, rest);
      [head] + rest
  }

  lemma MapWhereStep(ms: seq<Message>, id: string, u: Update, head: Message, rest: seq<Message>)
    requires ms != [] && head == (if ms[0].id == id then Apply(u, ms[0]) else ms[0])
    requires |rest| == |ms| - 1
    requires forall i :: 0 <= i < |rest| ==> rest[i] == (if ms[1..][i].id == id then Apply(u, ms[1..][i]) else ms[1..][i])
    ensures forall i :: 0 <= i < |ms| ==> ([head] + rest)[i] == (if ms[i].id == id then Apply(u, ms[i]) else ms[i])
  {
    forall i | 0 <= i < |ms|
      ensures ([head] + rest)[i] == (if ms[i].id == id then Apply(u, ms[i]) else ms[i])
    {
      if i > 0 {
        assert ([head] + rest)[i] == rest[i - 1] && ms[1..][i - 1] == ms[i];
      }
    }
  }

  function Ids(ms: seq<Message>): seq<string> {
    seq(|ms|, i requires 0 <= i < |ms| => ms[i].id)
  }

  /** Neither transcript length nor order changes, and only messages with the id are touched. */
  lemma {:induction false} MapWhereKeepsShape(ms: seq<Message>, id: string, u: Update)
    ensures Ids(MapWhere(ms, id, u)) == Ids(ms)
    ensures forall i :: 0 <= i < |ms| && ms[i].id != id ==> MapWhere(ms, id, u)[i] == ms[i]
  {
    var r := MapWhere(ms, id, u);
    forall i | 0 <= i < |ms| ensures r[i].id == ms[i].id {
      ApplyChangesOnlyItsFields(u, ms[i]);
    }
  }

  /** No message is both liked and disliked. */
  predicate NoConflict(ms: seq<Message>) {
    forall i :: 0 <= i < |ms| ==> !(ms[i].liked && ms[i].disliked)
  }

  /** Every update keeps the like and dislike flags mutually exclusive, and after a like
      or a dislike the touched messages hold at most one of them even when they held both. */
  lemma {:induction false} UpdatesKeepNoConflict(ms: seq<Message>, id: string, u: Update)
    ensures NoConflict(ms) ==> NoConflict(MapWhere(ms, id, u))
    ensures u in {Like, Dislike} ==> forall i :: 0 <= i < |ms| && ms[i].id == id ==>
      !(MapWhere(ms, id, u)[i].liked && MapWhere(ms, id, u)[i].disliked)
  {
    var r := MapWhere(ms, id, u);
    if NoConflict(ms) {
      forall i | 0 <= i < |ms| ensures !(r[i].liked && r[i].disliked) {
        assert r[i] == (if ms[i].id == id then Apply(u, ms[i]) else ms[i]);
      }
    }
  }

  /** A run of likes and dislikes, in any order and on any ids, keeps the transcript free of conflicts. */
  function Feedback(ms: seq<Message>, clicks: seq<(string, bool)>): seq<Message>
    decreases |clicks|
  {
    if clicks == [] then ms
    else Feedback(MapWhere(ms, clicks[0].0, if clicks[0].1 then Like else Dislike), clicks[1..])
  }

  lemma {:induction false} FeedbackKeepsNoConflict(ms: seq<Message>, clicks: seq<(string, bool)>)
    requires NoConflict(ms)
    ensures NoConflict(Feedback(ms, clicks))
    ensures Ids(Feedback(ms, clicks)) == Ids(ms)
    decreases |clicks|
  {
    if clicks != [] {
      var u := if clicks[0].1 then Like else Dislike;
      UpdatesKeepNoConflict(ms, clicks[0].0, u);
      MapWhereKeepsShape(ms, clicks[0].0, u);
      FeedbackKeepsNoConflict(MapWhere(ms, clicks[0].0, u), clicks[1..]);
    }
  }

  // ---------------------------------------------------------------------------
  // Lookups and index-based updates

  predicate HasMessage(ms: seq<Message>, id: string) {
    exists i :: 0 <= i < |ms| && ms[i].id == id
  }

  /** `findIndex(msg => msg.id === id)`. */
  function IndexOfMessage(ms: seq<Message>, id: string): (k: int)
    ensures -1 <= k < |ms|
    ensures k == -1 <==> !HasMessage(ms, id)
    ensures k >= 0 ==> ms[k].id == id && forall j :: 0 <= j < k ==> ms[j].id != id
  {
    if ms == [] then -1
    else if ms[0].id == id then 0
    else
      var k := IndexOfMessage(ms[1..], id);
      if k == -1 then -1 else k + 1
  }

  /** The transcript `handleUpdateMessage` produces: unchanged when the id is absent,
      otherwise everything up to and including the edited message, whose content alone
      is replaced. */
  function EditTruncate(ms: seq<Message>, id: string, content: string): (r: seq<Message>)
    ensures !HasMessage(ms, id) ==> r == ms
    ensures HasMessage(ms, id) ==>
      var k := IndexOfMessage(ms, id);
      |r| == k + 1 && r[..k] == ms[..k] && r[k] == ms[k].(content := content)
  {
    var k := IndexOfMessage(ms, id);
    if k == -1 then ms else ms[..k] + [ms[k].(content := content)]
  }

  /** Editing twice with the same text gives the same transcript as editing once. */
  lemma {:induction false} EditTruncateIdempotent(ms: seq<Message>, id: string, content: string)
    ensures EditTruncate(EditTruncate(ms, id, content), id, content) == EditTruncate(ms, id, content)
  {
    var r := EditTruncate(ms, id, content);
    if HasMessage(ms, id) {
      var k := IndexOfMessage(ms, id);
      assert r[k].id == id;
      assert HasMessage(r, id);
      assert IndexOfMessage(r, id) == k;
    }
  }

  /** The placeholder `handleRegenerate` writes at once: the first message with the id
      gets the placeholder text and loses its verification. */
  function StartRegenerate(ms: seq<Message>, id: string): (r: seq<Message>)
    ensures |r| == |ms| && Ids(r) == Ids(ms)
    ensures !HasMessage(ms, id) ==> r == ms
    ensures HasMessage(ms, id) ==>
      var k := IndexOfMessage(ms, id);
      r == ms[k := ms[k].(content := RegeneratingContent, verifiedSegments := None, sources := None)]
  {
    var k := IndexOfMessage(ms, id);
    if k == -1 then ms
    else
      var r := ms[k := ms[k].(content := RegeneratingContent, verifiedSegments := None, sources := None)];
      assert forall i :: 0 <= i < |r| ==> r[i].id == ms[i].id;
      r
  }

  /** After the placeholder, the regenerated message has no verification and the others are untouched. */
  lemma {:induction false} RegenerateClearsVerification(ms: seq<Message>, id: string)
    requires HasMessage(ms, id)
    ensures var k := IndexOfMessage(ms, id);
      StartRegenerate(ms, id)[k].verifiedSegments.None? && StartRegenerate(ms, id)[k].sources.None?
      && forall i :: 0 <= i < |ms| && i != k ==> StartRegenerate(ms, id)[i] == ms[i]
  {
  }

  /** The whole of `handleRegenerate`, once its timer has fired: the first message with
      the id carries the regenerated text and thought and no verification, feedback and
      thinking steps kept. */
  lemma {:induction false} RegenerateOutcome(ms: seq<Message>, id: string)
    requires HasMessage(ms, id)
    ensures var k := IndexOfMessage(ms, id);
      var r := MapWhere(StartRegenerate(ms, id), id, FinishRegenerate);
      |r| == |ms| && r[k] == ms[k].(content := RegeneratedContent, lastThought := Some(RegeneratedThought), verifiedSegments := None, sources := None)
  {
    var k := IndexOfMessage(ms, id);
    var s := StartRegenerate(ms, id);
    assert s[k] == ms[k].(content := RegeneratingContent, verifiedSegments := None, sources := None);
    var r := MapWhere(s, id, FinishRegenerate);
    assert r[k] == Apply(FinishRegenerate, s[k]);
  }

  /** A verification that finishes between the placeholder and the new text lands on the
      regenerated message: the new text then carries the segments and sources checked
      for the old one. */
  lemma {:induction false} VerifyBeforeRegenerateFinishes(ms: seq<Message>, id: string)
    requires HasMessage(ms, id)
    ensures var k := IndexOfMessage(ms, id);
      var r := MapWhere(MapWhere(StartRegenerate(ms, id), id, FinishVerify), id, FinishRegenerate);
      && |r| == |ms|
      && r[k].content == RegeneratedContent
      && r[k].verifiedSegments == Some(CheckedSegments) && r[k].sources == Some(CheckedSources)
  {
    var k := IndexOfMessage(ms, id);
    var s := StartRegenerate(ms, id);
    var p := ms[k].(content := RegeneratingContent, verifiedSegments := None, sources := None);
    assert s[k] == p && p.id == id;
    var m1 := MapWhere(s, id, FinishVerify);
    var v := p.(verifiedSegments := Some(CheckedSegments), sources := Some(CheckedSources));
    assert m1[k] == Apply(FinishVerify, p) == v;
    var r := MapWhere(m1, id, FinishRegenerate);
    assert r[k] == Apply(FinishRegenerate, v) == v.(content := RegeneratedContent, lastThought := Some(RegeneratedThought));
  }

  /** Truncating an edit, writing the regeneration placeholder and appending a message
      without both flags all keep likes and dislikes exclusive. */
  lemma {:induction false} EditsKeepNoConflict(ms: seq<Message>, id: string, content: string, m: Message)
    requires NoConflict(ms)
    ensures NoConflict(EditTruncate(ms, id, content))
    ensures NoConflict(StartRegenerate(ms, id))
    ensures !(m.liked && m.disliked) ==> NoConflict(ms + [m])
  {
    var e := EditTruncate(ms, id, content);
    if HasMessage(ms, id) {
      var k := IndexOfMessage(ms, id);
      forall i | 0 <= i < |e| ensures !(e[i].liked && e[i].disliked) {
        if i < k { assert e[i] == e[..k][i] == ms[..k][i] == ms[i]; }
      }
    }
    var r := StartRegenerate(ms, id);
    forall i | 0 <= i < |r| ensures !(r[i].liked && r[i].disliked) {
      var k := IndexOfMessage(ms, id);
      assert r[i].liked == ms[i].liked && r[i].disliked == ms[i].disliked;
    }
    if !(m.liked && m.disliked) {
      var a := ms + [m];
      forall i | 0 <= i < |a| ensures !(a[i].liked && a[i].disliked) {
        if i < |ms| { assert a[i] == ms[i]; }
      }
    }
  }
}
