/** The paper analyser's conversation log (`ConversationManager`): a bounded
    list of user/mediator exchanges, the recent history handed to the
    mediator's prompt, and the text shown in the chat pane.  The clock that
    stamps an exchange is a parameter. */
module Conversation {
  import opened Text

  /** One logged exchange. */
  datatype Exchange = Exchange(timestamp: string, user: string, assistant: string)

  /** The longest log a bound of `maxHistory` keeps: a bound below one
      removes every exchange as soon as it is added. */
  function Capacity(maxHistory: int): nat {
    if maxHistory < 0 then 0 else maxHistory
  }

  /** `log[-lastN:] if len(log) > lastN else log`, with Python's slice
      rules: a positive `lastN` keeps the last `lastN` exchanges, `-0` is `0`
      so zero keeps them all, and a negative `lastN` drops the first
      `-lastN`. */
  function Recent(log: seq<Exchange>, lastN: int): (r: seq<Exchange>)
    ensures lastN >= 1 ==> r == log[|log| - (if lastN < |log| then lastN else |log|)..]
    ensures lastN == 0 ==> r == log
    ensures lastN < 0 ==> r == log[(if -lastN < |log| then -lastN else |log|)..]
    ensures |r| <= |log| && r == log[|log| - |r|..]
  {
    if |log| > lastN then
      if lastN > 0 then log[|log| - lastN..]
      else if lastN == 0 then log
      else if -lastN < |log| then log[-lastN..]
      else []
    else log
  }

  /** The two lines one exchange adds to the mediator's history. */
  function HistoryBlock(e: Exchange): string {
    "사용자: " + e.user + "\n" + "중재자: " + e.assistant + "\n\n"
  }

  /** The history blocks of the exchanges, oldest first. */
  function HistoryText(exchanges: seq<Exchange>): string {
    if exchanges == [] then "" else HistoryText(exchanges[..|exchanges| - 1]) + HistoryBlock(exchanges[|exchanges| - 1])
  }

  /** The history of a list of exchanges is the history of its first part
      followed by that of the rest. */
  lemma {:induction false} HistoryTextAppend(a: seq<Exchange>, b: seq<Exchange>)
    ensures HistoryText(a + b) == HistoryText(a) + HistoryText(b)
    decreases |b|
  {
    if b == [] {
      assert a + b == a;
    } else {
      var last := b[|b| - 1];
      assert (a + b)[..|a + b| - 1] == a + b[..|b| - 1];
      assert HistoryText(a + b) == HistoryText(a + b[..|b| - 1]) + HistoryBlock(last);
      HistoryTextAppend(a, b[..|b| - 1]);
    }
  }

  /** A non-empty history starts with the first exchange's user line. */
  lemma {:induction false} HistoryTextStartsWithUser(exchanges: seq<Exchange>)
    requires exchanges != []
    ensures StartsWith(HistoryText(exchanges), "사용자: " + exchanges[0].user + "\n")
  {
    if |exchanges| == 1 {
      assert exchanges[..0] == [];
    } else {
      HistoryTextStartsWithUser(exchanges[..|exchanges| - 1]);
    }
  }

  /** The stripped history is empty exactly when there are no exchanges. */
  lemma HistoryEmptyIffNoExchanges(exchanges: seq<Exchange>)
    ensures Strip(HistoryText(exchanges)) == "" <==> exchanges == []
  {
    if exchanges != [] {
      HistoryTextStartsWithUser(exchanges);
      var h := HistoryText(exchanges);
      assert h[0] == '사' && !IsSpace(h[0]);
    }
  }

  const DISPLAY_RULE := Repeat('-', 50)

  /** The block one exchange adds to the chat pane: its time, the user's
      line, the mediator's line, and a rule of 50 dashes. */
  function DisplayBlock(e: Exchange): string {
    "🕒 " + e.timestamp + "\n"
    + "🙋 **사용자**: " + e.user + "\n"
    + "🤖 **중재자**: " + e.assistant + "\n"
    + DISPLAY_RULE + "\n\n"
  }

  /** The chat pane text of the exchanges, oldest first. */
  function DisplayText(exchanges: seq<Exchange>): string {
    if exchanges == [] then "" else DisplayText(exchanges[..|exchanges| - 1]) + DisplayBlock(exchanges[|exchanges| - 1])
  }

  /** A non-empty chat pane starts with the first exchange's time line. */
  lemma {:induction false} DisplayTextStartsWithTime(exchanges: seq<Exchange>)
    requires exchanges != []
    ensures StartsWith(DisplayText(exchanges), "🕒 " + exchanges[0].timestamp + "\n")
  {
    if |exchanges| == 1 {
      assert exchanges[..0] == [];
    } else {
      DisplayTextStartsWithTime(exchanges[..|exchanges| - 1]);
    }
  }

  /** A block is 79 fixed characters (the clock, the two labels, the rule
      and the line breaks) plus the exchange's three fields. */
  lemma DisplayBlockLength(e: Exchange)
    ensures |DisplayBlock(e)| == 79 + |e.timestamp| + |e.user| + |e.assistant|
  {
    assert |DISPLAY_RULE| == 50;
  }

  /** Each exchange adds at least its 79 fixed characters, so the pane is
      empty exactly when the log is. */
  lemma {:induction false} DisplayTextLength(exchanges: seq<Exchange>)
    ensures |DisplayText(exchanges)| >= 79 * |exchanges|
    ensures DisplayText(exchanges) == "" <==> exchanges == []
  {
    if exchanges != [] {
      DisplayTextLength(exchanges[..|exchanges| - 1]);
      DisplayBlockLength(exchanges[|exchanges| - 1]);
    }
  }

  /** The log after adding `e`: appended at the end, and the oldest exchange
      dropped when the log then exceeds the bound. */
  function Appended(log: seq<Exchange>, maxHistory: int, e: Exchange): seq<Exchange> {
    var added := log + [e];
    if |added| > maxHistory then added[1..] else added
  }

  /** The manager: a bound and the log of exchanges. */
  class ConversationManager {
    const maxHistory: int
    var log: seq<Exchange>

    predicate Valid()
      reads this
    {
      |log| <= Capacity(maxHistory)
    }

    constructor(maxHistory: int)
      ensures this.maxHistory == maxHistory && log == [] && Valid()
    {
      this.maxHistory := maxHistory;
      log := [];
    }

    /** Appends the exchange and, when the log then exceeds the bound, drops
        the oldest one. */
    method AddExchange(userInput: string, assistantResponse: string, timestamp: string)
      requires Valid()
      modifies this
      ensures Valid()
      ensures log == Appended(old(log), maxHistory, Exchange(timestamp, userInput, assistantResponse))
    {
      var exchange := Exchange(timestamp, userInput, assistantResponse);
      log := log + [exchange];
      if |log| > maxHistory {
        log := log[1..];
      }
    }

    /** The history of the recent exchanges, stripped. */
    method GetConversationHistory(lastN: int) returns (history: string)
      ensures history == Strip(HistoryText(Recent(log, lastN)))
    {
      var recentLog := if |log| > lastN then (if lastN > 0 then log[|log| - lastN..]
                                               else if lastN == 0 then log
                                               else if -lastN < |log| then log[-lastN..]
                                               else [])
                       else log;
      assert recentLog == Recent(log, lastN);
      var historyText := "";
      for i := 0 to |recentLog|
        invariant historyText == HistoryText(recentLog[..i])
      {
        assert recentLog[..i + 1][..i] == recentLog[..i];
        ghost var before := historyText;
        historyText := historyText + "사용자: " + recentLog[i].user + "\n";
        historyText := historyText + "중재자: " + recentLog[i].assistant + "\n\n";
        assert historyText == before + HistoryBlock(recentLog[i]);
      }
      assert recentLog[..|recentLog|] == recentLog;
      history := Strip(historyText);
    }

    method ClearMemory()
      modifies this
      ensures log == [] && Valid()
    {
      log := [];
    }

    /** The chat pane text of the whole log. */
    method GetFormattedChatDisplay() returns (displayText: string)
      ensures displayText == DisplayText(log)
    {
      displayText := "";
      for i := 0 to |log|
        invariant displayText == DisplayText(log[..i])
      {
        assert log[..i + 1][..i] == log[..i];
        ghost var before := displayText;
        displayText := displayText + "🕒 " + log[i].timestamp + "\n";
        displayText := displayText + "🙋 **사용자**: " + log[i].user + "\n";
        displayText := displayText + "🤖 **중재자**: " + log[i].assistant + "\n";
        assert displayText == before + ("🕒 " + log[i].timestamp + "\n"
                                        + "🙋 **사용자**: " + log[i].user + "\n"
                                        + "🤖 **중재자**: " + log[i].assistant + "\n");
        displayText := displayText + Repeat('-', 50) + "\n\n";
        assert displayText == before + DisplayBlock(log[i]);
      }
      assert log[..|log|] == log;
    }
  }

  /** Adding to a log within its bound keeps it within the bound, puts the
      new exchange last, and removes at most the oldest exchange, keeping the
      others in order. */
  lemma AddExchangeKeepsOrder(log: seq<Exchange>, maxHistory: int, e: Exchange)
    requires |log| <= Capacity(maxHistory)
    ensures var next := Appended(log, maxHistory, e);
      && |next| <= Capacity(maxHistory)
      && (next != [] ==> next[|next| - 1] == e)
      && (|log| < maxHistory ==> next[..|next| - 1] == log)
      && (|log| >= maxHistory && log != [] ==> next[..|next| - 1] == log[1..])
  {
  }
}
