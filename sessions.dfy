/**
  The per-browser-session state of the consultation script and the steps one
  run of the script applies to it. The state is the session dictionary itself:
  a map from key to value, of which the script owns four keys: the two input
  buffers, the cached summary and the transcript.

  Each step is a function on the map (the specification), and `Session` is the
  dictionary as an object whose methods update it in place the way the script
  does (deleting keys in a loop, appending turns one at a time); every method
  is proved to leave exactly the map its step function describes.
 */
module Sessions {
  import opened PyText
  import opened Dataset
  import opened Chat

  /** A session value: the text of an input buffer or of the summary, a
      transcript, or whatever else a widget of the page keeps there. */
  datatype Value = Str(text: string) | Turns(turns: seq<Turn>) | Misc(tag: string)

  type State = map<string, Value>

  const CodeKey: string := "codigo_input"
  const SummaryKey: string := "resumo_cliente"
  const HistoryKey: string := "chat_history"
  const QuestionKey: string := "nova_pergunta"

  /** The keys the "clear everything" button deletes, in the order it does. */
  const ResetKeys: seq<string> := [CodeKey, SummaryKey, HistoryKey, QuestionKey]

  /** The key under which the corrected run records the code its summary and
      transcript were built for (see `RerunTrackedStep`). */
  const ActiveKey: string := "cliente_ativo"

  lemma KeysDistinct()
    ensures CodeKey != SummaryKey && CodeKey != HistoryKey && CodeKey != QuestionKey
    ensures SummaryKey != HistoryKey && SummaryKey != QuestionKey && HistoryKey != QuestionKey
    ensures ActiveKey != CodeKey && ActiveKey != SummaryKey
    ensures ActiveKey != HistoryKey && ActiveKey != QuestionKey
  {
    assert CodeKey[1] != HistoryKey[1];
    assert SummaryKey[0] != ActiveKey[0];
  }

  /** The shape of the script's own keys: buffers and summary are text, and a
      transcript is well formed. */
  predicate WellTyped(st: State) {
    && (CodeKey in st ==> st[CodeKey].Str?)
    && (QuestionKey in st ==> st[QuestionKey].Str?)
    && (SummaryKey in st ==> st[SummaryKey].Str?)
    && (HistoryKey in st ==> st[HistoryKey].Turns? && WellFormed(st[HistoryKey].turns))
  }

  /** What a text widget shows: its buffer, or "" when the buffer is absent. */
  function TextInput(st: State, key: string): string {
    if key in st && st[key].Str? then st[key].text else ""
  }

  /** "Clear everything": the four keys are gone, and every other key keeps
      its value. Keys that were absent stay absent. */
  function ResetStep(st: State): (r: State)
    ensures forall k | k in ResetKeys :: k !in r
    ensures forall k | k in st && k !in ResetKeys :: k in r && r[k] == st[k]
    ensures r.Keys <= st.Keys
    ensures WellTyped(st) ==> WellTyped(r)
  {
    st - (set k | k in ResetKeys)
  }

  /** The summary slot is filled only when empty, with the text kept for the
      service's reply to the summary request; a cached summary is reused as
      it is, and the rest of the state is untouched. */
  function SummaryStep(st: State, dump: string, llm: Llm): (r: State)
    ensures SummaryKey in r
    ensures SummaryKey in st ==> r == st
    ensures SummaryKey !in st ==> r[SummaryKey] == Str(SummaryText(llm(SummaryRequest(dump))))
    ensures r - {SummaryKey} == st - {SummaryKey}
    ensures WellTyped(st) ==> WellTyped(r)
  {
    KeysDistinct();
    if SummaryKey in st then st
    else st[SummaryKey := Str(SummaryText(llm(SummaryRequest(dump))))]
  }

  /** The transcript is created only when absent, holding just the system
      turn over the field dump; an existing transcript is never re-seeded. */
  function SeedStep(st: State, dump: string): (r: State)
    ensures HistoryKey in r
    ensures HistoryKey in st ==> r == st
    ensures HistoryKey !in st ==> r[HistoryKey] == Turns(SeedTranscript(dump))
    ensures r - {HistoryKey} == st - {HistoryKey}
    ensures WellTyped(st) ==> WellTyped(r)
  {
    KeysDistinct();
    if HistoryKey in st then st
    else st[HistoryKey := Turns(SeedTranscript(dump))]
  }

  /** The transcript after one question and its answer: the old turns, the
      user turn with the question as typed, then the assistant turn. */
  function Exchange(h: seq<Turn>, question: string, answer: string): (r: seq<Turn>)
    ensures |r| == |h| + 2 && r[..|h|] == h
    ensures r[|h|] == Turn(UserRole, question) && r[|h| + 1] == Turn(AssistantRole, answer)
    ensures WellFormed(h) && !AllSpace(question) ==> WellFormed(r)
  {
    var r := h + [Turn(UserRole, question), Turn(AssistantRole, answer)];
    assert WellFormed(h) && !AllSpace(question) ==> WellFormed(r) by {
      if WellFormed(h) && !AllSpace(question) {
        ExchangeKeepsWellFormed(h, question, answer);
      }
    }
    r
  }

  /** The request sent for a question: the transcript with the question
      appended as a user turn. */
  function Asked(h: seq<Turn>, question: string): seq<Turn> {
    h + [Turn(UserRole, question)]
  }

  /** Asking: without the button, or with a question that is blank after
      stripping, nothing changes; otherwise the transcript becomes the
      `Exchange` of the old one with the stored text of the service's reply
      to the transcript that already holds the question, and nothing else
      changes. */
  function AskStep(st: State, send: bool, question: string, llm: Llm): (r: State)
    requires HistoryKey in st && st[HistoryKey].Turns?
    ensures !send || AllSpace(question) ==> r == st
    ensures send && !AllSpace(question) ==>
      var h := st[HistoryKey].turns;
      HistoryKey in r && r[HistoryKey] == Turns(Exchange(h, question, AnswerText(llm(Asked(h, question)))))
    ensures r - {HistoryKey} == st - {HistoryKey}
    ensures WellTyped(st) ==> WellTyped(r)
  {
    KeysDistinct();
    var h := st[HistoryKey].turns;
    if send && !AllSpace(question) then
      st[HistoryKey := Turns(Exchange(h, question, AnswerText(llm(Asked(h, question)))))]
    else st
  }

  /** The end-of-run cleanup of the question box: the box is drawn only
      when a row is found, and the framework forgets the buffer of a keyed
      widget that a run did not draw. Every other key is kept. */
  function ForgetQuestion(st: State): (r: State)
    ensures QuestionKey !in r
    ensures forall k | k in st && k != QuestionKey :: k in r && r[k] == st[k]
    ensures r.Keys <= st.Keys
    ensures WellTyped(st) ==> WellTyped(r)
  {
    st - {QuestionKey}
  }

  /** The part of a run after a row is found: the summary is ensured, the
      transcript is ensured, and the question in its buffer is asked. A
      cached summary and an existing transcript are reused; a transcript only
      grows at its end; no other key changes. Without the send button the
      transcript is the existing one or the fresh seed. */
  function Consult(st: State, dump: string, send: bool, llm: Llm): (r: State)
    requires WellTyped(st)
    ensures WellTyped(r) && SummaryKey in r && HistoryKey in r
    ensures SummaryKey in st ==> r[SummaryKey] == st[SummaryKey]
    ensures SummaryKey !in st ==> r[SummaryKey] == Str(SummaryText(llm(SummaryRequest(dump))))
    ensures HistoryKey in st ==>
      |r[HistoryKey].turns| >= |st[HistoryKey].turns|
      && r[HistoryKey].turns[..|st[HistoryKey].turns|] == st[HistoryKey].turns
    ensures HistoryKey !in st ==>
      |r[HistoryKey].turns| > 0 && r[HistoryKey].turns[0] == SeedTranscript(dump)[0]
    ensures !send ==>
      r[HistoryKey] == if HistoryKey in st then st[HistoryKey] else Turns(SeedTranscript(dump))
    ensures forall k | k in st && k != SummaryKey && k != HistoryKey :: k in r && r[k] == st[k]
  {
    var s0 := SummaryStep(st, dump, llm);
    var s1 := SeedStep(s0, dump);
    KeysDistinct();
    assert s1[SummaryKey] == s0[SummaryKey] by {
      assert SummaryKey in s0 - {HistoryKey};
    }
    var r := AskStep(s1, send, TextInput(s1, QuestionKey), llm);
    assert r[SummaryKey] == s1[SummaryKey] by {
      assert SummaryKey in s1 - {HistoryKey};
    }
    OthersKept(st, s0, s1, r);
    r
  }

  /** One run of the script. `reset` and `send` say whether the clear button
      and the send button were pressed in this run; the code and the question
      are read from their buffers. The clear button ends the run after
      deleting the keys. Otherwise, for a code that finds a row, the run
      `Consult`s that row's dump; for an empty code or one that finds no
      row, only the question buffer is forgotten, because the question box
      was not drawn. */
  function RerunStep(st: State, t: Table, reset: bool, send: bool, llm: Llm): (r: State)
    requires WellTyped(st) && Keyed(t)
    ensures WellTyped(r)
    ensures reset ==> r == ResetStep(st)
    ensures !reset && !Find(t, TextInput(st, CodeKey)).Found? ==> r == ForgetQuestion(st)
    ensures !reset && Find(t, TextInput(st, CodeKey)).Found? ==>
      r == Consult(st, FieldDump(t.columns, Find(t, TextInput(st, CodeKey)).row), send, llm)
  {
    if reset then ResetStep(st)
    else
      match Find(t, TextInput(st, CodeKey))
      case Found(_, row) => Consult(st, FieldDump(t.columns, row), send, llm)
      case _ => ForgetQuestion(st)
  }

  /** A summary update followed by two transcript updates leaves every other
      key as it was. */
  lemma OthersKept(st: State, s0: State, s1: State, r: State)
    requires s0 - {SummaryKey} == st - {SummaryKey}
    requires s1 - {HistoryKey} == s0 - {HistoryKey}
    requires r - {HistoryKey} == s1 - {HistoryKey}
    ensures forall k | k in st && k != SummaryKey && k != HistoryKey :: k in r && r[k] == st[k]
  {
    forall k | k in st && k != SummaryKey && k != HistoryKey ensures k in r && r[k] == st[k] {
      assert k in st - {SummaryKey} && k in s0 - {HistoryKey} && k in s1 - {HistoryKey};
    }
  }

  /** After "clear everything", the next run does nothing at all: the code
      buffer is gone, so no lookup happens. */
  lemma ResetThenRerun(st: State, t: Table, send: bool, llm: Llm)
    requires WellTyped(st) && Keyed(t)
    ensures RerunStep(ResetStep(st), t, false, send, llm) == ResetStep(st)
  {
    assert CodeKey in ResetKeys && QuestionKey in ResetKeys;
    assert TextInput(ResetStep(st), CodeKey) == "";
    assert ForgetQuestion(ResetStep(st)) == ResetStep(st);
  }

  /** The field dump of the row a code finds. */
  function DumpOf(t: Table, code: string): string
    requires Keyed(t) && Find(t, code).Found?
  {
    FieldDump(t.columns, Find(t, code).row)
  }

  /** The summary derived from the row a code finds. */
  function SummaryOf(t: Table, code: string, llm: Llm): string
    requires Keyed(t) && Find(t, code).Found?
  {
    SummaryText(llm(SummaryRequest(DumpOf(t, code))))
  }

  /** As written, the summary and the transcript outlive a change of code:
      after a run for code `a`, typing code `b` (without clearing) and running
      again shows `a`'s summary and keeps `a`'s transcript, whenever the two
      customers' summaries differ. */
  lemma StaleAfterCodeChange(t: Table, a: string, b: string, llm: Llm)
    requires Keyed(t) && Find(t, a).Found? && Find(t, b).Found?
    requires SummaryOf(t, a, llm) != SummaryOf(t, b, llm)
    ensures
      var s1 := RerunStep(map[CodeKey := Str(a)], t, false, false, llm);
      var s2 := RerunStep(s1[CodeKey := Str(b)], t, false, false, llm);
      && SummaryKey in s2 && HistoryKey in s2
      && s2[SummaryKey] == Str(SummaryOf(t, a, llm))
      && s2[SummaryKey] != Str(SummaryOf(t, b, llm))
      && s2[HistoryKey] == Turns(SeedTranscript(DumpOf(t, a)))
  {
    KeysDistinct();
    FirstRunFills(t, a, llm);
    var s1 := RerunStep(map[CodeKey := Str(a)], t, false, false, llm);
    var s1' := s1[CodeKey := Str(b)];
    assert s1'[SummaryKey] == s1[SummaryKey] && s1'[HistoryKey] == s1[HistoryKey];
    assert WellTyped(s1');
    RerunKeepsDerived(s1', t, llm);
  }

  /** The first run for a code that finds a row, with nothing sent, stores
      that row's summary and a transcript holding just its seed. */
  lemma FirstRunFills(t: Table, a: string, llm: Llm)
    requires Keyed(t) && Find(t, a).Found?
    ensures
      var s1 := RerunStep(map[CodeKey := Str(a)], t, false, false, llm);
      && WellTyped(s1) && SummaryKey in s1 && HistoryKey in s1
      && s1[SummaryKey] == Str(SummaryOf(t, a, llm))
      && s1[HistoryKey] == Turns(SeedTranscript(DumpOf(t, a)))
  {
    KeysDistinct();
    var s0: State := map[CodeKey := Str(a)];
    assert TextInput(s0, CodeKey) == a;
  }

  /** As written, a run that sends nothing leaves an existing summary and an
      existing transcript exactly as they were, whatever code it finds. */
  lemma RerunKeepsDerived(st: State, t: Table, llm: Llm)
    requires WellTyped(st) && Keyed(t) && SummaryKey in st && HistoryKey in st
    ensures
      var r := RerunStep(st, t, false, false, llm);
      SummaryKey in r && HistoryKey in r && r[SummaryKey] == st[SummaryKey] && r[HistoryKey] == st[HistoryKey]
  {
    KeysDistinct();
  }

  /** The derived state is current for `code`: the code finds a row, and any
      summary and transcript present were derived from that row. */
  predicate CurrentFor(st: State, t: Table, llm: Llm, code: string)
    requires Keyed(t)
  {
    && Find(t, code).Found?
    && (SummaryKey in st ==> st[SummaryKey] == Str(SummaryOf(t, code, llm)))
    && (HistoryKey in st ==>
          && st[HistoryKey].Turns? && |st[HistoryKey].turns| > 0
          && st[HistoryKey].turns[0] == SeedTranscript(DumpOf(t, code))[0])
  }

  /** The invariant of the corrected run: a summary or transcript present
      belongs to the code recorded under `ActiveKey`. */
  predicate Coherent(st: State, t: Table, llm: Llm)
    requires Keyed(t)
  {
    (SummaryKey in st || HistoryKey in st) ==>
      ActiveKey in st && st[ActiveKey].Str? && CurrentFor(st, t, llm, st[ActiveKey].text)
  }

  /** Records `code` as the active one, first dropping the summary and the
      transcript when they were built for a different code. */
  function TrackStep(st: State, code: string): (r: State)
    ensures ActiveKey in r && r[ActiveKey] == Str(code)
    ensures ActiveKey in st && st[ActiveKey] != Str(code) ==> SummaryKey !in r && HistoryKey !in r
    ensures !(ActiveKey in st && st[ActiveKey] != Str(code)) ==> r - {ActiveKey} == st - {ActiveKey}
    ensures forall k | k in st && k != SummaryKey && k != HistoryKey && k != ActiveKey :: k in r && r[k] == st[k]
    ensures WellTyped(st) ==> WellTyped(r)
  {
    KeysDistinct();
    if ActiveKey in st && st[ActiveKey] != Str(code) then (st - {SummaryKey, HistoryKey})[ActiveKey := Str(code)]
    else st[ActiveKey := Str(code)]
  }

  /** The run with the behaviour the script evidently intends: identical to
      `RerunStep` except that, for a code that finds a row, the derived state
      is first re-keyed to that code by `TrackStep`. */
  function RerunTrackedStep(st: State, t: Table, reset: bool, send: bool, llm: Llm): (r: State)
    requires WellTyped(st) && Keyed(t)
    ensures WellTyped(r)
    ensures reset ==> r == ResetStep(st)
    ensures !reset && !Find(t, TextInput(st, CodeKey)).Found? ==> r == ForgetQuestion(st)
    ensures !reset && Find(t, TextInput(st, CodeKey)).Found? ==>
      var code := TextInput(st, CodeKey);
      r == Consult(TrackStep(st, code), FieldDump(t.columns, Find(t, code).row), send, llm)
  {
    if reset then ResetStep(st)
    else
      var code := TextInput(st, CodeKey);
      match Find(t, code)
      case Found(_, row) => Consult(TrackStep(st, code), FieldDump(t.columns, row), send, llm)
      case _ => ForgetQuestion(st)
  }

  /** With the correction, a run for a code that finds a row always leaves
      that row's summary and a transcript seeded from that row, and keeps
      the invariant. */
  lemma TrackedShowsCurrent(st: State, t: Table, send: bool, llm: Llm)
    requires WellTyped(st) && Keyed(t) && Coherent(st, t, llm)
    requires Find(t, TextInput(st, CodeKey)).Found?
    ensures
      var code := TextInput(st, CodeKey);
      var r := RerunTrackedStep(st, t, false, send, llm);
      && SummaryKey in r && r[SummaryKey] == Str(SummaryOf(t, code, llm))
      && HistoryKey in r && |r[HistoryKey].turns| > 0
      && r[HistoryKey].turns[0] == SeedTranscript(DumpOf(t, code))[0]
      && Coherent(r, t, llm)
  {
    KeysDistinct();
    var code := TextInput(st, CodeKey);
    var dump := DumpOf(t, code);
    var s0 := TrackStep(st, code);
    assert CurrentFor(s0, t, llm, code);
    var r := Consult(s0, dump, send, llm);
    assert r == RerunTrackedStep(st, t, false, send, llm);
    assert r[ActiveKey] == s0[ActiveKey];
    assert CurrentFor(r, t, llm, code);
  }

  /** Typing into either buffer between runs keeps the invariant. */
  lemma TypingKeepsCoherent(st: State, t: Table, llm: Llm, key: string, text: string)
    requires Keyed(t) && Coherent(st, t, llm)
    requires key == CodeKey || key == QuestionKey
    ensures Coherent(st[key := Str(text)], t, llm)
  {
    KeysDistinct();
    var st' := st[key := Str(text)];
    if SummaryKey in st' || HistoryKey in st' {
      assert st'[ActiveKey] == st[ActiveKey];
      assert CurrentFor(st, t, llm, st[ActiveKey].text);
    }
  }

  /** Every corrected run keeps the invariant, and a fresh session has it. */
  lemma TrackedKeepsCoherent(st: State, t: Table, reset: bool, send: bool, llm: Llm)
    requires WellTyped(st) && Keyed(t) && Coherent(st, t, llm)
    ensures Coherent(map[], t, llm)
    ensures Coherent(RerunTrackedStep(st, t, reset, send, llm), t, llm)
  {
    KeysDistinct();
    if !reset && Find(t, TextInput(st, CodeKey)).Found? {
      TrackedShowsCurrent(st, t, send, llm);
    } else if reset {
      assert SummaryKey in ResetKeys && HistoryKey in ResetKeys;
    }
  }

  /** The session dictionary as an object, with the script's updates. */
  class Session {
    var state: State

    ghost predicate Valid()
      reads this
    {
      WellTyped(state)
    }

    /** A new session holds nothing. */
    constructor ()
      ensures Valid() && state == map[]
    {
      state := map[];
    }

    /** Deletes each of the four keys that is present, one after another. */
    method Reset()
      requires Valid()
      modifies this
      ensures Valid() && state == ResetStep(old(state))
    {
      for i := 0 to |ResetKeys|
        invariant state == old(state) - (set k | k in ResetKeys[..i])
      {
        var key := ResetKeys[i];
        assert ResetKeys[..i + 1] == ResetKeys[..i] + [key];
        if key in state {
          state := state - {key};
        }
      }
      assert ResetKeys[..|ResetKeys|] == ResetKeys;
    }

    /** Fills the summary slot from the service's reply if it is empty. */
    method EnsureSummary(dump: string, llm: Llm)
      requires Valid()
      modifies this
      ensures Valid() && state == SummaryStep(old(state), dump, llm)
    {
      if SummaryKey !in state {
        var reply := llm(SummaryRequest(dump));
        state := state[SummaryKey := Str(SummaryText(reply))];
      }
    }

    /** Creates the transcript with its system turn if it is absent. */
    method EnsureTranscript(dump: string)
      requires Valid()
      modifies this
      ensures Valid() && state == SeedStep(old(state), dump)
    {
      if HistoryKey !in state {
        state := state[HistoryKey := Turns(SeedTranscript(dump))];
      }
    }

    /** Whether `s.strip()` is empty, the way the question is tested. This is
        `Strip` itself, not a second definition of blankness: a method call
        exposes only the `AllSpace` characterisation to its callers, so that
        `Ask`'s proof does not have to unfold `Strip`. */
    static method IsBlank(s: string) returns (b: bool)
      ensures b <==> AllSpace(s)
    {
      b := Strip(s) == "";
    }

    /** Appends the user turn, asks the service with the transcript as it then
        is, and appends the assistant turn for its reply. */
    method Ask(send: bool, question: string, llm: Llm)
      requires Valid() && HistoryKey in state
      modifies this
      ensures Valid() && state == AskStep(old(state), send, question, llm)
    {
      var blank := IsBlank(question);
      if send && !blank {
        var h := state[HistoryKey].turns;
        state := state[HistoryKey := Turns(h + [Turn(UserRole, question)])];
        var reply := llm(state[HistoryKey].turns);
        var answer := AnswerText(reply);
        state := state[HistoryKey := Turns(state[HistoryKey].turns + [Turn(AssistantRole, answer)])];
        assert state[HistoryKey].turns == Exchange(h, question, answer);
      }
    }

    /** One run of the script over the loaded table (see `RerunStep`). */
    method Rerun(t: Table, reset: bool, send: bool, llm: Llm)
      requires Valid() && Keyed(t)
      modifies this
      ensures Valid() && state == RerunStep(old(state), t, reset, send, llm)
    {
      var code := TextInput(state, CodeKey);
      if reset {
        Reset();
        return;
      }
      if code != "" {
        var found := Find(t, code);
        if found.Found? {
          var dump := FieldDump(t.columns, found.row);
          EnsureSummary(dump, llm);
          EnsureTranscript(dump);
          var question := TextInput(state, QuestionKey);
          Ask(send, question, llm);
          return;
        }
      }
      ForgetQuestionBox();
    }

    /** Drops the question buffer when present (see `ForgetQuestion`). */
    method ForgetQuestionBox()
      requires Valid()
      modifies this
      ensures Valid() && state == ForgetQuestion(old(state))
    {
      if QuestionKey in state {
        state := state - {QuestionKey};
      }
    }
  }
}
