/** Handling one public chat line: telling commands from plain text, finding
    the command name, and running the handler it names. */
module Dispatch {
  import opened Opt
  import opened Text
  import opened Raffle

  /** The channel the bot joined, by name; the bot keeps it as "#" + name. */
  datatype Config = Config(channel: string)

  function Target(cfg: Config): string {
    "#" + cfg.channel
  }

  /** The raffle owner check: the speaker against the stored channel with its
      leading "#" cut off. */
  predicate IsOwner(cfg: Config, source: string) {
    source == Target(cfg)[1..]
  }

  lemma OwnerIsChannel(cfg: Config, source: string)
    ensures IsOwner(cfg, source) <==> source == cfg.channel
  {
    assert Target(cfg)[1..] == cfg.channel;
  }

  /** What the channel metadata service answered at the time of the line:
      the game field when it is a string, and the status field. */
  datatype Metadata = Metadata(game: Option<string>, status: string)

  /** One public chat line, with the outside inputs its handler may consult. */
  datatype Event = Event(source: string, text: string, meta: Metadata, draw: Draw)

  /** The line's one-character prefix is "!". */
  predicate IsCommand(text: string) {
    (if |text| == 0 then "" else text[..1]) == "!"
  }

  lemma CommandIffBang(text: string)
    ensures IsCommand(text) <==> |text| > 0 && text[0] == '!'
  {
    if |text| > 0 {
      assert text[..1] == [text[0]];
    }
  }

  /** The first space-separated piece of the line without its "!". */
  function CommandName(text: string): (cmd: string)
    requires IsCommand(text)
    ensures ' ' !in cmd
    ensures "!" + cmd <= text
    ensures |cmd| + 1 == |text| || text[|cmd| + 1] == ' '
  {
    CommandIffBang(text);
    var head := Head(text, ' ');
    assert |head| >= 1;
    assert head == "!" + head[1..];
    head[1..]
  }

  /** The three facts above pin the command name down. */
  lemma {:induction false} CommandNameUnique(text: string, cmd: string)
    requires IsCommand(text)
    ensures cmd == CommandName(text) <==>
      && ' ' !in cmd
      && "!" + cmd <= text
      && (|cmd| + 1 == |text| || text[|cmd| + 1] == ' ')
  {
    var c := CommandName(text);
    if ' ' !in cmd && "!" + cmd <= text && (|cmd| + 1 == |text| || text[|cmd| + 1] == ' ') {
      assert |cmd| == |c|;
      assert forall k :: 0 <= k < |cmd| ==> cmd[k] == ("!" + cmd)[k + 1] == text[k + 1] == ("!" + c)[k + 1] == c[k];
    }
  }

  /** A line "!" + name + rest, where rest is empty or starts with a space,
      is the command name. */
  lemma {:induction false} CommandNameOf(name: string, rest: string)
    requires ' ' !in name
    requires rest == "" || rest[0] == ' '
    ensures IsCommand("!" + name + rest) && CommandName("!" + name + rest) == name
  {
    var text := "!" + name + rest;
    CommandIffBang(text);
    assert text[..|name| + 1] == "!" + name;
    CommandNameUnique(text, name);
  }

  function GameReply(source: string, game: Option<string>): string {
    match game
    case None => source + " No current game"
    case Some(g) => source + " Currently playing " + g
  }

  function TitleReply(source: string, status: string): string {
    source + " Channel title is currently " + status
  }

  function ShoutoutReply(target: string): string {
    "Please follow and support " + target + " at twitch.tv/" + target
  }

  function UnknownReply(source: string, cmd: string): string {
    source + " Did not understand command: " + cmd
  }

  /** The handler the command name selects. */
  function DoCommand(cfg: Config, st: State, ev: Event, cmd: string): (o: Outcome)
    requires IsDraw(ev.draw)
    requires IsCommand(ev.text) && cmd == CommandName(ev.text)
    ensures cmd != "raffle" ==> o.state == st
    ensures cmd == "raffle" && !IsOwner(cfg, ev.source) ==> o == Done(st, None)
    ensures o.Failed? ==>
      || (cmd == "shoutout" && |Fields(ev.text)| < 2 && o.fault == MissingTarget)
      || (cmd == "raffle" && st.isRaffle && st.entrylist == {} && o.fault == NoEntrants)
  {
    CommandIffBang(ev.text);
    assert |Fields(ev.text)| >= 1;
    if cmd == "game" then
      Done(st, Some(GameReply(ev.source, ev.meta.game)))
    else if cmd == "title" then
      Done(st, Some(TitleReply(ev.source, ev.meta.status)))
    else if cmd == "shoutout" then
      var args := Fields(ev.text);
      if |args| < 2 then Failed(st, MissingTarget) else Done(st, Some(ShoutoutReply(args[1])))
    else if cmd == "raffle" then
      if IsOwner(cfg, ev.source) then Toggle(st, Fields(ev.text), ev.draw) else Done(st, None)
    else
      Done(st, Some(UnknownReply(ev.source, cmd)))
  }

  /** One public chat line. */
  function Step(cfg: Config, st: State, ev: Event): (o: Outcome)
    requires IsDraw(ev.draw)
    ensures Good(st) ==> Good(o.state)
    ensures o.state.entrylist <= st.entrylist + {ev.source}
  {
    if IsCommand(ev.text) then
      DoCommand(cfg, st, ev, CommandName(ev.text))
    else
      Done(OnChat(st, ev.source, ev.text), None)
  }

  /** A line not starting with "!" never gets a reply and only ever adds its
      speaker, exactly when a raffle is open and the line is its keyword. */
  lemma PlainLine(cfg: Config, st: State, ev: Event)
    requires IsDraw(ev.draw)
    requires !(|ev.text| > 0 && ev.text[0] == '!')
    ensures Step(cfg, st, ev) == Done(
      st.(entrylist := if st.isRaffle && ev.text == st.kwrd then st.entrylist + {ev.source} else st.entrylist),
      None)
  {
    CommandIffBang(ev.text);
  }

  /** The raffle command from anyone but the channel owner changes nothing
      and is not answered. */
  lemma {:induction false} NonOwnerRaffleIgnored(cfg: Config, st: State, ev: Event)
    requires IsDraw(ev.draw)
    requires IsCommand(ev.text) && CommandName(ev.text) == "raffle"
    requires ev.source != cfg.channel
    ensures Step(cfg, st, ev) == Done(st, None)
  {
    OwnerIsChannel(cfg, ev.source);
  }

  /** The owner opens a closed raffle with the second whitespace-split word as
      keyword; the entry list is left as it was, so empty in a good state. */
  lemma {:induction false} OwnerOpens(cfg: Config, st: State, ev: Event)
    requires IsDraw(ev.draw)
    requires IsCommand(ev.text) && CommandName(ev.text) == "raffle"
    requires ev.source == cfg.channel && !st.isRaffle
    requires |Fields(ev.text)| > 1
    ensures Step(cfg, st, ev) == Done(State(true, Fields(ev.text)[1], st.entrylist), None)
    ensures Good(st) ==> Step(cfg, st, ev).state.entrylist == {}
  {
    OwnerIsChannel(cfg, ev.source);
  }

  /** The owner's raffle command with no keyword leaves a closed raffle closed. */
  lemma {:induction false} OwnerOpensWithoutKeyword(cfg: Config, st: State, ev: Event)
    requires IsDraw(ev.draw)
    requires IsCommand(ev.text) && CommandName(ev.text) == "raffle"
    requires ev.source == cfg.channel && !st.isRaffle
    requires |Fields(ev.text)| <= 1
    ensures Step(cfg, st, ev) == Done(st, None)
  {
    OwnerIsChannel(cfg, ev.source);
    CommandIffBang(ev.text);
  }

  /** The owner closes an open raffle: the raffle is closed, the entry list
      emptied and the keyword kept; the reply names an entrant, and with no
      entrants the pick raises instead. */
  lemma {:induction false} OwnerCloses(cfg: Config, st: State, ev: Event)
    requires IsDraw(ev.draw)
    requires IsCommand(ev.text) && CommandName(ev.text) == "raffle"
    requires ev.source == cfg.channel && st.isRaffle
    ensures var o := Step(cfg, st, ev);
      && o.state == State(false, st.kwrd, {})
      && (st.entrylist == {} <==> o == Failed(o.state, NoEntrants))
      && (st.entrylist != {} ==> exists w :: w in st.entrylist && o == Done(o.state, Some(WinnerReply(w))))
  {
    OwnerIsChannel(cfg, ev.source);
  }

  /** Every command other than the raffle leaves the state alone and answers
      as its handler says. */
  lemma {:induction false} OtherCommands(cfg: Config, st: State, ev: Event)
    requires IsDraw(ev.draw)
    requires IsCommand(ev.text) && CommandName(ev.text) != "raffle"
    ensures var o := Step(cfg, st, ev);
      var cmd := CommandName(ev.text);
      var args := Fields(ev.text);
      && o.state == st
      && (cmd == "game" ==> o.reply == Some(GameReply(ev.source, ev.meta.game)))
      && (cmd == "title" ==> o.reply == Some(TitleReply(ev.source, ev.meta.status)))
      && (cmd == "shoutout" && |args| >= 2 ==> o == Done(st, Some(ShoutoutReply(args[1]))))
      && (cmd == "shoutout" && |args| < 2 ==> o == Failed(st, MissingTarget))
      && (cmd !in {"game", "title", "shoutout"} ==> o == Done(st, Some(UnknownReply(ev.source, cmd))))
  {
  }

  /** A keyword starting with "!" can never be entered: the line that equals
      it is a command. */
  lemma {:induction false} BangKeywordAdmitsNobody(cfg: Config, st: State, ev: Event)
    requires IsDraw(ev.draw)
    requires st.kwrd != "" && st.kwrd[0] == '!'
    ensures Step(cfg, st, ev).state.entrylist <= st.entrylist
  {
    CommandIffBang(ev.text);
  }

  /** Only the single space ends the command name: a tab after "!raffle" makes
      the whole line an unknown command, even from the owner. */
  lemma TabInsideCommandName(cfg: Config, st: State, ev: Event)
    requires IsDraw(ev.draw)
    requires ev.text == "!raffle\tkw"
    ensures Step(cfg, st, ev) == Done(st, Some(UnknownReply(ev.source, "raffle\tkw")))
  {
    assert ev.text == "!" + "raffle\tkw" + "";
    CommandNameOf("raffle\tkw", "");
  }
}
