/**
  The conversation about one customer: role-tagged turns, the replies of the
  text-generation service, the texts stored for a reply or an error, the
  prompts built from a field dump, and the HTML rendering of the transcript.
 */
module Chat {
  import opened PyText

  /** One message of a transcript. Roles are the service's role names. */
  datatype Turn = Turn(role: string, content: string)

  const SystemRole: string := "system"
  const UserRole: string := "user"
  const AssistantRole: string := "assistant"

  /** The outcome of one chat-completion request: the generated message text,
      or the text of the exception the request raised. */
  datatype Reply = Answer(text: string) | Failure(message: string)

  /** The text-generation service as the script sees it: the reply it gives to
      an ordered list of turns (sampling is fixed at temperature 0). */
  type Llm = seq<Turn> -> Reply

  const SummaryIntro: string :=
    "Você é um assistente especializado em Banda Larga.\n"
    + "A seguir estão várias informações referentes a um determinado Cliente:\n\n"
  const SummaryRules: string :=
    "\n\nFaça um resumo de todas as informações do Cliente em questão.\n"
    + "Regras:\n- Dê ênfase aos campos com informações úteis.\n- Ignore campos com valor 0 ou NaN."

  /** The one-turn request that asks for the summary of a field dump: a single
      user turn in which the dump sits, unchanged, between the fixed
      introduction and the fixed rules. */
  function SummaryRequest(dump: string): (r: seq<Turn>)
    ensures |r| == 1 && r[0].role == UserRole
    ensures var c := r[0].content;
      && |c| == |SummaryIntro| + |dump| + |SummaryRules|
      && c[..|SummaryIntro|] == SummaryIntro
      && c[|SummaryIntro|..|SummaryIntro| + |dump|] == dump
      && c[|SummaryIntro| + |dump|..] == SummaryRules
  {
    var c := SummaryIntro + dump + SummaryRules;
    assert c[|SummaryIntro|..|SummaryIntro| + |dump|] == dump;
    [Turn(UserRole, c)]
  }

  const SummaryErrorPrefix: string := "Erro ao chamar API: "
  const AnswerErrorPrefix: string := "Erro na API: "

  /** Different dumps give different summary requests, so the summary a
      service returns can depend on which row was dumped. */
  lemma SummaryRequestInjective(d1: string, d2: string)
    requires SummaryRequest(d1) == SummaryRequest(d2)
    ensures d1 == d2
  {
    var c1 := SummaryRequest(d1)[0].content;
    var c2 := SummaryRequest(d2)[0].content;
    assert |d1| == |d2|;
    assert d1 == c1[|SummaryIntro|..|SummaryIntro| + |d1|];
    assert d2 == c2[|SummaryIntro|..|SummaryIntro| + |d2|];
  }

  /** `prefix` followed by exactly `tail`. */
  predicate PrefixedBy(r: string, prefix: string, tail: string) {
    |r| == |prefix| + |tail| && r[..|prefix|] == prefix && r[|prefix|..] == tail
  }

  /** The text kept for a reply: a generation loses its surrounding
      whitespace, and a failure becomes `errorPrefix` followed by the
      exception's message; in neither case is the failure passed on. */
  function ReplyText(reply: Reply, errorPrefix: string): (r: string)
    ensures reply.Answer? ==>
      |r| <= |reply.text| && (r != [] ==> !IsSpace(r[0]) && !IsSpace(r[|r| - 1]))
    ensures reply.Answer? ==> (r == [] <==> AllSpace(reply.text))
    ensures reply.Failure? ==> PrefixedBy(r, errorPrefix, reply.message)
  {
    match reply
    case Answer(text) => Strip(text)
    case Failure(message) => errorPrefix + message
  }

  /** The cached summary for a reply to the summary request. */
  function SummaryText(reply: Reply): string {
    ReplyText(reply, SummaryErrorPrefix)
  }

  /** The content of the assistant turn for a reply to the transcript. */
  function AnswerText(reply: Reply): string {
    ReplyText(reply, AnswerErrorPrefix)
  }

  const SystemPrefix: string :=
    "Você é um assistente especializado em Banda Larga. Use os dados abaixo como referência:\n"

  /** The transcript a conversation starts from: one system turn carrying the
      field dump after the fixed instruction. */
  function SeedTranscript(dump: string): (r: seq<Turn>)
    ensures |r| == 1 && r[0].role == SystemRole
    ensures PrefixedBy(r[0].content, SystemPrefix, dump)
    ensures WellFormed(r)
  {
    [Turn(SystemRole, SystemPrefix + dump)]
  }

  /** The role expected at position `i >= 1` of a transcript. */
  function RoleAt(i: nat): string {
    if i % 2 == 1 then UserRole else AssistantRole
  }

  /** The shape every stored transcript keeps: the system turn, then pairs of
      a user turn with a non-blank question and an assistant turn. */
  predicate WellFormed(h: seq<Turn>) {
    && |h| % 2 == 1
    && h[0].role == SystemRole
    && forall i | 1 <= i < |h| ::
         h[i].role == RoleAt(i) && (i % 2 == 1 ==> !AllSpace(h[i].content))
  }

  /** Appending a question and its answer keeps a transcript well formed. */
  lemma ExchangeKeepsWellFormed(h: seq<Turn>, question: string, answer: string)
    requires WellFormed(h) && !AllSpace(question)
    ensures WellFormed(h + [Turn(UserRole, question), Turn(AssistantRole, answer)])
  {
    var h' := h + [Turn(UserRole, question), Turn(AssistantRole, answer)];
    forall i | 1 <= i < |h'|
      ensures h'[i].role == RoleAt(i) && (i % 2 == 1 ==> !AllSpace(h'[i].content))
    {
      if i < |h| {
        assert h'[i] == h[i];
      } else if i == |h| {
        assert i % 2 == 1;
      } else {
        assert i % 2 == 0;
      }
    }
  }

  // The container the transcript is rendered into. The opening string keeps
  // the line breaks and indentation of the script's triple-quoted literal.
  const ChatOpen: string :=
    "\n            <div style='height:400px; overflow-y:scroll; padding:10px; border:1px solid #ccc;\n"
    + "                        border-radius:10px; background-color:#f9f9f9; font-family: sans-serif; font-size: 14px;'>\n"
    + "            "
  const ChatClose: string := "</div>"
  const UserLabel: string := "<p><b>\U{1F9D1}\U{200D}\U{1F4BC} Você:</b> "
  const BotLabel: string := "<p><b>\U{1F916} Assistente:</b> "
  const ParagraphClose: string := "</p>"

  /** The label of a turn: the user's for role "user", the assistant's for
      every other role. */
  function Label(t: Turn): (r: string)
    ensures r == UserLabel || r == BotLabel
    ensures r == UserLabel <==> t.role == UserRole
  {
    assert UserLabel != BotLabel by { assert UserLabel[6] != BotLabel[6]; }
    if t.role == UserRole then UserLabel else BotLabel
  }

  /** The paragraph one turn renders to: its label, its content exactly as
      stored (nothing is escaped), and the closing tag. */
  function TurnHtml(t: Turn): (r: string)
    ensures |r| == |Label(t)| + |t.content| + |ParagraphClose|
    ensures r[..|Label(t)|] == Label(t)
    ensures r[|Label(t)|..|Label(t)| + |t.content|] == t.content
    ensures r[|r| - |ParagraphClose|..] == ParagraphClose
  {
    var r := Label(t) + t.content + ParagraphClose;
    assert r[|Label(t)|..|Label(t)| + |t.content|] == t.content;
    r
  }

  /** A paragraph tells its turn's content and whether it was the user's:
      equal paragraphs come from turns with the same content and the same
      label. */
  lemma TurnHtmlInjective(t1: Turn, t2: Turn)
    requires TurnHtml(t1) == TurnHtml(t2)
    ensures t1.content == t2.content
    ensures t1.role == UserRole <==> t2.role == UserRole
  {
    var p := TurnHtml(t1);
    assert Label(t1) == Label(t2) by {
      assert |UserLabel| > 6 && |BotLabel| > 6;
      assert UserLabel[6] != BotLabel[6];
      assert p[6] == Label(t1)[6] && p[6] == Label(t2)[6];
    }
    var n := |Label(t1)|;
    assert |t1.content| == |t2.content|;
    assert t1.content == p[n..n + |t1.content|];
  }

  /** The paragraphs of `ts`, in order (a left fold, as `+=` builds it). */
  function TurnsHtml(ts: seq<Turn>): string
    decreases |ts|
  {
    if ts == [] then "" else TurnsHtml(ts[..|ts| - 1]) + TurnHtml(ts[|ts| - 1])
  }

  /** Rendering one more turn appends that turn's paragraph. */
  lemma TurnsHtmlSnoc(ts: seq<Turn>, k: nat)
    requires k < |ts|
    ensures TurnsHtml(ts[..k + 1]) == TurnsHtml(ts[..k]) + TurnHtml(ts[k])
  {
    assert ts[..k + 1][..k] == ts[..k];
    assert ts[..k + 1][k] == ts[k];
  }

  /** Rendering a concatenation renders the two parts one after the other. */
  lemma {:induction false} TurnsHtmlAppend(a: seq<Turn>, b: seq<Turn>)
    ensures TurnsHtml(a + b) == TurnsHtml(a) + TurnsHtml(b)
    decreases |b|
  {
    if b != [] {
      var b' := b[..|b| - 1];
      var last := b[|b| - 1];
      assert (a + b)[..|a + b| - 1] == a + b';
      assert (a + b)[|a + b| - 1] == last;
      assert TurnsHtml(a + b) == TurnsHtml(a + b') + TurnHtml(last);
      assert TurnsHtml(b) == TurnsHtml(b') + TurnHtml(last);
      TurnsHtmlAppend(a, b');
      AppendAssoc(TurnsHtml(a), TurnsHtml(b'), TurnHtml(last));
    } else {
      assert a + b == a;
    }
  }

  /** Python's `history[1:]`: every turn after the first, in order; a slice
      past the end is empty rather than an error. */
  function AfterFirst(h: seq<Turn>): (r: seq<Turn>)
    ensures |h| <= 1 ==> r == []
    ensures |h| > 0 ==> |r| == |h| - 1 && forall i | 0 <= i < |r| :: r[i] == h[i + 1]
  {
    if h == [] then [] else h[1..]
  }

  /** The HTML shown for a transcript: the container, a paragraph for each
      turn after the system turn, and the closing tag. */
  function ChatHtml(h: seq<Turn>): (r: string)
    ensures |r| >= |ChatOpen| + |ChatClose|
    ensures r[..|ChatOpen|] == ChatOpen
    ensures r[|r| - |ChatClose|..] == ChatClose
  {
    var body := TurnsHtml(AfterFirst(h));
    assert (ChatOpen + body + ChatClose)[..|ChatOpen|] == ChatOpen;
    ChatOpen + body + ChatClose
  }

  /** Builds the transcript's HTML the way the script does: open the
      container, add one paragraph per turn after the first, close it. */
  method RenderChat(h: seq<Turn>) returns (html: string)
    ensures html == ChatHtml(h)
  {
    var msgs := AfterFirst(h);
    html := ChatOpen;
    for k := 0 to |msgs|
      invariant html == ChatOpen + TurnsHtml(msgs[..k])
    {
      TurnsHtmlSnoc(msgs, k);
      AppendAssoc(ChatOpen, TurnsHtml(msgs[..k]), TurnHtml(msgs[k]));
      html := html + TurnHtml(msgs[k]);
    }
    assert msgs[..|msgs|] == msgs;
    html := html + ChatClose;
  }

  /** The system turn is never shown: transcripts that differ only in their
      first turn render identically. */
  lemma ChatHtmlHidesFirst(x: Turn, y: Turn, rest: seq<Turn>)
    ensures ChatHtml([x] + rest) == ChatHtml([y] + rest)
  {
    assert AfterFirst([x] + rest) == rest == AfterFirst([y] + rest);
  }

  /** A transcript with only its system turn renders as an empty container. */
  lemma ChatHtmlSeedOnly(h: seq<Turn>)
    requires |h| <= 1
    ensures ChatHtml(h) == ChatOpen + ChatClose
  {
  }

  /** After a question is asked, the rendering is the old one with the user's
      paragraph and then the assistant's paragraph inserted before the
      closing tag. */
  lemma ChatHtmlAfterExchange(h: seq<Turn>, u: Turn, a: Turn)
    requires |h| > 0
    ensures ChatHtml(h + [u, a]) == ChatOpen + TurnsHtml(h[1..]) + TurnHtml(u) + TurnHtml(a) + ChatClose
  {
    var body := TurnsHtml(h[1..]);
    calc {
      ChatHtml(h + [u, a]);
      { assert AfterFirst(h + [u, a]) == h[1..] + [u, a]; }
      ChatOpen + TurnsHtml(h[1..] + [u, a]) + ChatClose;
      { TurnsHtmlAppend(h[1..], [u, a]); TurnsHtmlPair(u, a); }
      ChatOpen + (body + (TurnHtml(u) + TurnHtml(a))) + ChatClose;
      { Regroup(ChatOpen, body, TurnHtml(u), TurnHtml(a), ChatClose); }
      ChatOpen + body + TurnHtml(u) + TurnHtml(a) + ChatClose;
    }
  }

  /** Two turns render as their two paragraphs. */
  lemma TurnsHtmlPair(u: Turn, a: Turn)
    ensures TurnsHtml([u, a]) == TurnHtml(u) + TurnHtml(a)
  {
    var pu := TurnHtml(u);
    assert [u, a][..1] == [u] && [u][..0] == [];
    assert TurnsHtml([u]) == TurnsHtml([]) + pu;
    assert TurnsHtml([]) + pu == pu;
  }

  /** Concatenation of five strings does not depend on the grouping of the
      middle three. */
  lemma Regroup(o: string, b: string, p: string, q: string, c: string)
    ensures o + (b + (p + q)) + c == o + b + p + q + c
  {
    AppendAssoc(b, p, q);
    AppendAssoc(o, b + p, q);
    AppendAssoc(o, b, p);
  }
}
