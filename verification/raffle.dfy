/** The raffle state the bot keeps between chat lines, and the two ways it
    changes: a keyword spoken in chat, and the channel owner's raffle toggle. */
module Raffle {
  import opened Opt
  import opened Text

  /** The bot's raffle fields: whether a raffle is open, its keyword, and the
      users who have entered. */
  datatype State = State(isRaffle: bool, kwrd: string, entrylist: set<string>)

  /** The state the bot starts with. */
  const Initial: State := State(false, "", {})

  /** A closed raffle has no entrants. */
  predicate Inv(st: State) {
    !st.isRaffle ==> st.entrylist == {}
  }

  /** An open raffle's keyword is one whitespace-free token. */
  predicate KeywordIsToken(st: State) {
    st.isRaffle ==> st.kwrd != "" && NoSpace(st.kwrd)
  }

  predicate Good(st: State) {
    Inv(st) && KeywordIsToken(st)
  }

  /** The exceptions a handler raises. */
  datatype Fault =
    | MissingTarget  // `split()[1]` of a shoutout with no target
    | NoEntrants     // `random.sample` of an empty entry list

  /** What handling one chat line leaves behind: the new state and at most one
      reply to the channel, or the exception raised and the state as it was
      when it was raised. */
  datatype Outcome =
    | Done(state: State, reply: Option<string>)
    | Failed(state: State, fault: Fault)

  /** The random pick of one member of a set. */
  type Draw = set<string> -> string

  ghost predicate IsDraw(draw: Draw) {
    forall s: set<string> :: s != {} ==> draw(s) in s
  }

  /** A chat line that is not a command: the speaker enters when a raffle is
      open and the line is exactly its keyword. */
  function OnChat(st: State, speaker: string, text: string): (st': State)
    ensures st'.isRaffle == st.isRaffle && st'.kwrd == st.kwrd
    ensures speaker in st'.entrylist <==> speaker in st.entrylist || (st.isRaffle && text == st.kwrd)
    ensures st'.entrylist - {speaker} == st.entrylist - {speaker}
    ensures Good(st) ==> Good(st')
  {
    if text == st.kwrd && st.isRaffle then
      if speaker !in st.entrylist then st.(entrylist := st.entrylist + {speaker}) else st
    else st
  }

  /** Entering twice is entering once. */
  lemma OnChatIdempotent(st: State, speaker: string, text: string)
    ensures OnChat(OnChat(st, speaker, text), speaker, text) == OnChat(st, speaker, text)
  {
  }

  /** The announcement of the winner. */
  function WinnerReply(winner: string): string {
    winner + " is the winner!"
  }

  /** The owner's raffle command, given the whitespace-split words of the line
      (the command word first). Opening needs a keyword word after the command;
      without one the toggle is undone. Closing picks a winner and empties the
      entry list. */
  function Toggle(st: State, args: seq<string>, draw: Draw): (o: Outcome)
    requires IsDraw(draw)
    ensures !st.isRaffle && |args| > 1 ==>
      o == Done(State(true, args[1], st.entrylist), None)
    ensures !st.isRaffle && |args| == 1 ==> o == Done(st, None)
    ensures st.isRaffle ==>
      && !o.state.isRaffle
      && o.state.kwrd == st.kwrd
      && o.state.entrylist == {}
      && (o.Failed? <==> st.entrylist == {})
      && (o.Failed? ==> o.fault == NoEntrants)
      && (o.Done? ==> exists w :: w in st.entrylist && o.reply == Some(WinnerReply(w)))
    ensures Good(st) && |args| >= 1 && (forall i :: 0 <= i < |args| ==> args[i] != "" && NoSpace(args[i])) ==>
      Good(o.state)
  {
    var on := !st.isRaffle;
    if on && |args| > 1 then
      Done(st.(isRaffle := true, kwrd := args[1]), None)
    else if on && |args| == 1 then
      // toggled back off: nothing changes
      Done(st, None)
    else if st.entrylist == {} then
      Failed(st.(isRaffle := on), NoEntrants)
    else
      var w := draw(st.entrylist);
      Done(State(on, st.kwrd, {}), Some(WinnerReply(w)))
  }
}
