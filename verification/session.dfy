/** A session: chat lines handled one at a time, in arrival order, from the
    bot's starting state. */
module Session {
  import opened Opt
  import opened Text
  import opened Raffle
  import opened Dispatch

  /** What a run of chat lines leaves behind: the final state, the replies
      sent in order, and the exception that ended the run, if any. */
  datatype Trace = Trace(state: State, replies: seq<string>, fault: Option<Fault>)

  ghost predicate AllDraws(evs: seq<Event>) {
    forall i :: 0 <= i < |evs| ==> IsDraw(evs[i].draw)
  }

  /** The lines handled in order; an exception stops the run with the state
      it left. */
  function Run(cfg: Config, st: State, evs: seq<Event>): (t: Trace)
    requires AllDraws(evs)
    ensures Good(st) ==> Good(t.state)
    ensures t.state.entrylist <= st.entrylist + set i | 0 <= i < |evs| :: evs[i].source
    decreases |evs|
  {
    if evs == [] then Trace(st, [], None)
    else
      match Step(cfg, st, evs[0])
      case Failed(st', f) => Trace(st', [], Some(f))
      case Done(st', r) =>
        var rest := Run(cfg, st', evs[1..]);
        assert forall i :: 0 <= i < |evs| - 1 ==> evs[1..][i].source == evs[i + 1].source;
        Trace(rest.state, ToSeq(r) + rest.replies, rest.fault)
  }

  /** Every state reachable from the start is good: a closed raffle has no
      entrants, and an open one has a one-word keyword. */
  lemma Reachable(cfg: Config, evs: seq<Event>)
    requires AllDraws(evs)
    ensures var t := Run(cfg, Initial, evs);
      && (!t.state.isRaffle ==> t.state.entrylist == {})
      && (t.state.isRaffle ==> t.state.kwrd != "" && NoSpace(t.state.kwrd))
  {
  }

  /** Saying the open raffle's keyword over and over enters the speaker once
      and changes nothing else. */
  lemma {:induction false} RepeatedEntry(cfg: Config, st: State, evs: seq<Event>, who: string)
    requires AllDraws(evs)
    requires st.isRaffle && |evs| >= 1
    requires forall i :: 0 <= i < |evs| ==> evs[i].source == who && evs[i].text == st.kwrd
    requires st.kwrd != "" && st.kwrd[0] != '!'
    ensures Run(cfg, st, evs) == Trace(st.(entrylist := st.entrylist + {who}), [], None)
    decreases |evs|
  {
    CommandIffBang(evs[0].text);
    var st' := st.(entrylist := st.entrylist + {who});
    assert Step(cfg, st, evs[0]) == Done(st', None);
    if |evs| > 1 {
      RepeatedEntry(cfg, st', evs[1..], who);
      assert st'.(entrylist := st'.entrylist + {who}) == st';
    }
  }

  /** The owner's opening line "!raffle " + kw is the raffle command. */
  lemma OpenName(kw: string)
    ensures IsCommand("!raffle " + kw) && CommandName("!raffle " + kw) == "raffle"
  {
    assert "!raffle " + kw == "!" + "raffle" + (" " + kw);
    CommandNameOf("raffle", " " + kw);
  }

  /** The whitespace-split words of "!raffle " + kw are "!raffle" and kw. */
  lemma OpenWords(kw: string)
    requires kw != "" && NoSpace(kw)
    ensures Fields("!raffle " + kw) == ["!raffle", kw]
  {
    var rest := [' '] + kw;
    assert "!raffle " + kw == "!raffle" + rest;
    assert NoSpace("!raffle");
    FieldsWordFirst("!raffle", rest);
    FieldsSpaceFirst(' ', kw);
    FieldsOfWord(kw);
  }

  lemma CloseLine()
    ensures IsCommand("!raffle") && CommandName("!raffle") == "raffle"
  {
    assert "!raffle" == "!" + "raffle" + "";
    CommandNameOf("raffle", "");
  }

  lemma OpenStep(cfg: Config, open: Event, kw: string)
    requires IsDraw(open.draw)
    requires open.source == cfg.channel && IsCommand(open.text) && CommandName(open.text) == "raffle"
    requires Fields(open.text) == ["!raffle", kw]
    ensures Step(cfg, Initial, open) == Done(State(true, kw, {}), None)
  {
    OwnerOpens(cfg, Initial, open);
  }

  lemma EntryStep(cfg: Config, st: State, ev: Event, who: string)
    requires IsDraw(ev.draw)
    requires st.isRaffle && st.kwrd != "" && st.kwrd[0] != '!'
    requires ev.source == who && ev.text == st.kwrd
    ensures Step(cfg, st, ev) == Done(st.(entrylist := st.entrylist + {who}), None)
  {
    PlainLine(cfg, st, ev);
  }

  lemma CloseEmptyStep(cfg: Config, st: State, close: Event)
    requires IsDraw(close.draw)
    requires close.source == cfg.channel && IsCommand(close.text) && CommandName(close.text) == "raffle"
    requires st.isRaffle && st.entrylist == {}
    ensures Step(cfg, st, close) == Failed(State(false, st.kwrd, {}), NoEntrants)
  {
    OwnerCloses(cfg, st, close);
  }

  lemma CloseOneStep(cfg: Config, st: State, close: Event, who: string)
    requires IsDraw(close.draw)
    requires close.source == cfg.channel && IsCommand(close.text) && CommandName(close.text) == "raffle"
    requires st.isRaffle && st.entrylist == {who}
    ensures Step(cfg, st, close) == Done(State(false, st.kwrd, {}), Some(WinnerReply(who)))
  {
    OwnerCloses(cfg, st, close);
    var o := Step(cfg, st, close);
    var w :| w in st.entrylist && o == Done(o.state, Some(WinnerReply(w)));
    assert w == who;
  }

  // The lemmas below unfold Run one line at a time. Scenario proofs chain
  // them instead of unfolding Run themselves, which keeps the literal command
  // strings of a scenario out of any context where Run and Step are expanded.

  lemma AllDrawsCons(ev: Event, evs: seq<Event>)
    requires IsDraw(ev.draw) && AllDraws(evs)
    ensures AllDraws([ev] + evs)
  {
    assert forall i :: 0 <= i < |evs| ==> evs[i] == ([ev] + evs)[i + 1];
  }

  /** Running a line that is handled without an exception, then the rest. */
  lemma RunDone(cfg: Config, st: State, ev: Event, evs: seq<Event>, st': State, r: Option<string>)
    requires IsDraw(ev.draw) && AllDraws(evs)
    requires Step(cfg, st, ev) == Done(st', r)
    ensures AllDraws([ev] + evs)
    ensures var rest := Run(cfg, st', evs);
      Run(cfg, st, [ev] + evs) == Trace(rest.state, ToSeq(r) + rest.replies, rest.fault)
  {
    AllDrawsCons(ev, evs);
    assert ([ev] + evs)[1..] == evs;
  }

  /** Running a line whose handler raises stops there. */
  lemma RunFailed(cfg: Config, st: State, ev: Event, evs: seq<Event>, st': State, f: Fault)
    requires IsDraw(ev.draw) && AllDraws(evs)
    requires Step(cfg, st, ev) == Failed(st', f)
    ensures AllDraws([ev] + evs)
    ensures Run(cfg, st, [ev] + evs) == Trace(st', [], Some(f))
  {
    AllDrawsCons(ev, evs);
    assert ([ev] + evs)[0] == ev;
  }

  lemma RunEmpty(cfg: Config, st: State)
    ensures Run(cfg, st, []) == Trace(st, [], None)
  {
  }

  lemma {:induction false} RepeatThenClose(cfg: Config, st: State, again: Event, close: Event, who: string)
    requires IsDraw(again.draw) && IsDraw(close.draw)
    requires st.isRaffle && st.kwrd != "" && st.kwrd[0] != '!' && st.entrylist == {who}
    requires again.source == who && again.text == st.kwrd
    requires close.source == cfg.channel && IsCommand(close.text) && CommandName(close.text) == "raffle"
    ensures AllDraws([again, close])
    ensures Run(cfg, st, [again, close]) == Trace(State(false, st.kwrd, {}), [WinnerReply(who)], None)
  {
    var s3 := State(false, st.kwrd, {});
    EntryStep(cfg, st, again, who);
    assert st.(entrylist := st.entrylist + {who}) == st;
    CloseOneStep(cfg, st, close, who);
    RunEmpty(cfg, s3);
    assert [close] + [] == [close];
    RunDone(cfg, st, close, [], s3, Some(WinnerReply(who)));
    assert [again] + [close] == [again, close];
    RunDone(cfg, st, again, [close], st, None);
  }

  lemma {:induction false} EnterEnterClose(cfg: Config, first: Event, again: Event, close: Event, kw: string, who: string)
    requires IsDraw(first.draw) && IsDraw(again.draw) && IsDraw(close.draw)
    requires kw != "" && kw[0] != '!'
    requires first.source == who && first.text == kw
    requires again.source == who && again.text == kw
    requires close.source == cfg.channel && IsCommand(close.text) && CommandName(close.text) == "raffle"
    ensures AllDraws([first, again, close])
    ensures Run(cfg, State(true, kw, {}), [first, again, close])
      == Trace(State(false, kw, {}), [WinnerReply(who)], None)
  {
    var s1 := State(true, kw, {});
    var s2 := State(true, kw, {who});
    EntryStep(cfg, s1, first, who);
    assert s1.(entrylist := s1.entrylist + {who}) == s2;
    RepeatThenClose(cfg, s2, again, close, who);
    assert [first] + [again, close] == [first, again, close];
    RunDone(cfg, s1, first, [again, close], s2, None);
  }

  lemma {:induction false} OpenEnterEnterClose(cfg: Config, open: Event, first: Event, again: Event, close: Event, kw: string, who: string)
    requires IsDraw(open.draw) && IsDraw(first.draw) && IsDraw(again.draw) && IsDraw(close.draw)
    requires kw != "" && kw[0] != '!'
    requires open.source == cfg.channel && IsCommand(open.text) && CommandName(open.text) == "raffle"
    requires Fields(open.text) == ["!raffle", kw]
    requires first.source == who && first.text == kw
    requires again.source == who && again.text == kw
    requires close.source == cfg.channel && IsCommand(close.text) && CommandName(close.text) == "raffle"
    ensures Run(cfg, Initial, [open, first, again, close])
      == Trace(State(false, kw, {}), [WinnerReply(who)], None)
  {
    OpenStep(cfg, open, kw);
    EnterEnterClose(cfg, first, again, close, kw, who);
    assert [open] + [first, again, close] == [open, first, again, close];
    RunDone(cfg, Initial, open, [first, again, close], State(true, kw, {}), None);
  }

  /** The owner opens a raffle with "!raffle " + kw, one user says kw twice,
      the owner closes it with "!raffle": that user is announced once, the
      entry list is empty, the raffle is closed, and kw is still the keyword. */
  lemma OneEntrantRaffle(cfg: Config, open: Event, first: Event, again: Event, close: Event, kw: string, who: string)
    requires IsDraw(open.draw) && IsDraw(first.draw) && IsDraw(again.draw) && IsDraw(close.draw)
    requires kw != "" && NoSpace(kw) && kw[0] != '!'
    requires open.source == cfg.channel && open.text == "!raffle " + kw
    requires first.source == who && first.text == kw
    requires again.source == who && again.text == kw
    requires close.source == cfg.channel && close.text == "!raffle"
    ensures Run(cfg, Initial, [open, first, again, close])
      == Trace(State(false, kw, {}), [WinnerReply(who)], None)
  {
    OpenName(kw);
    OpenWords(kw);
    CloseLine();
    OpenEnterEnterClose(cfg, open, first, again, close, kw, who);
  }

  /** The owner opens a raffle on "giveaway", alice says it twice, the owner
      closes it: alice is announced, the entry list is empty, the raffle is
      closed, and the keyword is still "giveaway". */
  lemma GiveawayScenario(cfg: Config, open: Event, alice1: Event, alice2: Event, close: Event)
    requires IsDraw(open.draw) && IsDraw(alice1.draw) && IsDraw(alice2.draw) && IsDraw(close.draw)
    requires open.source == cfg.channel && open.text == "!raffle giveaway"
    requires alice1.source == "alice" && alice1.text == "giveaway"
    requires alice2.source == "alice" && alice2.text == "giveaway"
    requires close.source == cfg.channel && close.text == "!raffle"
    ensures Run(cfg, Initial, [open, alice1, alice2, close])
      == Trace(State(false, "giveaway", {}), [WinnerReply("alice")], None)
  {
    assert "!raffle giveaway" == "!raffle " + "giveaway";
    assert NoSpace("giveaway");
    OneEntrantRaffle(cfg, open, alice1, alice2, close, "giveaway", "alice");
  }

  lemma {:induction false} OpenThenClose(cfg: Config, open: Event, close: Event, kw: string)
    requires IsDraw(open.draw) && IsDraw(close.draw)
    requires open.source == cfg.channel && IsCommand(open.text) && CommandName(open.text) == "raffle"
    requires Fields(open.text) == ["!raffle", kw]
    requires close.source == cfg.channel && IsCommand(close.text) && CommandName(close.text) == "raffle"
    ensures Run(cfg, Initial, [open, close]) == Trace(State(false, kw, {}), [], Some(NoEntrants))
  {
    var s1 := State(true, kw, {});
    OpenStep(cfg, open, kw);
    CloseEmptyStep(cfg, s1, close);
    assert [close] + [] == [close];
    RunFailed(cfg, s1, close, [], State(false, kw, {}), NoEntrants);
    assert [open] + [close] == [open, close];
    RunDone(cfg, Initial, open, [close], s1, None);
  }

  /** Closing a raffle nobody entered raises, and leaves it closed with its
      keyword still set. */
  lemma CloseWithoutEntrants(cfg: Config, open: Event, close: Event, kw: string)
    requires IsDraw(open.draw) && IsDraw(close.draw)
    requires kw != "" && NoSpace(kw)
    requires open.source == cfg.channel && open.text == "!raffle " + kw
    requires close.source == cfg.channel && close.text == "!raffle"
    ensures Run(cfg, Initial, [open, close]) == Trace(State(false, kw, {}), [], Some(NoEntrants))
  {
    OpenName(kw);
    OpenWords(kw);
    CloseLine();
    OpenThenClose(cfg, open, close, kw);
  }
}
