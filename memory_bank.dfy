/** The assistant's conversation history ("memory bank"): on every completed
    voice turn the trimmed transcripts of both sides are appended as two
    entries, and only the newest thirty entries are kept. */
module MemoryBank {
  import opened Text

  const HistoryLimit: nat := 30

  /** `s.slice(-n)` for n > 0: the last `n` entries, or all when fewer. */
  function KeepLast(s: seq<string>, n: nat): (r: seq<string>)
    requires n > 0
    ensures |r| == if |s| < n then |s| else n
    ensures r == s[|s| - |r|..]
  {
    if |s| > n then s[|s| - n..] else s
  }

  function UserEntry(stamp: string, said: string): string {
    "[" + stamp + "] User: " + said
  }

  function AssistantEntry(said: string): string {
    "Ria: " + said
  }

  /** The user's entry opens with '[' and the time stamp, the assistant's
      with 'R', so the two are never confused; each ends with the words
      said. */
  lemma EntriesCarryWords(stamp: string, heard: string, spoken: string)
    ensures var u, a := UserEntry(stamp, heard), AssistantEntry(spoken);
      && |u| == |stamp| + |heard| + 9 && |a| == |spoken| + 5
      && u[0] == '[' && u[1..1 + |stamp|] == stamp && u[|u| - |heard|..] == heard
      && a[0] == 'R' && a[|a| - |spoken|..] == spoken
      && u != a
  {
    var u, a := UserEntry(stamp, heard), AssistantEntry(spoken);
    assert u[1..1 + |stamp|] == stamp && u[|u| - |heard|..] == heard;
    assert a[|a| - |spoken|..] == spoken;
    assert u[0] != a[0];
  }

  /** The history after a turn whose trimmed transcripts are `userSaid`
      and `assistantSaid`: two entries are appended unless both are empty,
      and only the newest thirty are kept. */
  function RecordTurn(bank: seq<string>, userSaid: string, assistantSaid: string, stamp: string): (r: seq<string>)
    ensures userSaid == "" && assistantSaid == "" ==> r == bank
    ensures userSaid != "" || assistantSaid != "" ==>
      var grown := bank + [UserEntry(stamp, userSaid), AssistantEntry(assistantSaid)];
      && |r| == (if |grown| < HistoryLimit then |grown| else HistoryLimit)
      && r == grown[|grown| - |r|..]
      && r[|r| - 2] == UserEntry(stamp, userSaid)
      && r[|r| - 1] == AssistantEntry(assistantSaid)
    ensures |bank| <= HistoryLimit ==> |r| <= HistoryLimit
  {
    if userSaid != "" || assistantSaid != "" then
      KeepLast(bank + [UserEntry(stamp, userSaid), AssistantEntry(assistantSaid)], HistoryLimit)
    else bank
  }

  /** The history after a turn completes with the given transcripts;
      `stamp` is the local time string of that moment. */
  function AfterTurn(bank: seq<string>, input: string, output: string, stamp: string): (r: seq<string>)
    ensures AllSpace(input) && AllSpace(output) ==> r == bank
    ensures !(AllSpace(input) && AllSpace(output)) ==>
      var grown := bank + [UserEntry(stamp, Trim(input)), AssistantEntry(Trim(output))];
      && |r| == (if |grown| < HistoryLimit then |grown| else HistoryLimit)
      && r == grown[|grown| - |r|..]
      && r[|r| - 2] == UserEntry(stamp, Trim(input))
      && r[|r| - 1] == AssistantEntry(Trim(output))
    ensures |bank| <= HistoryLimit ==> |r| <= HistoryLimit
  {
    var userSaid, assistantSaid := Trim(input), Trim(output);
    assert userSaid == "" && assistantSaid == "" <==> AllSpace(input) && AllSpace(output);
    RecordTurn(bank, userSaid, assistantSaid, stamp)
  }

  /** An entry already in the history survives a turn exactly while fewer
      than thirty entries follow it. */
  lemma EntrySurvivesTurn(bank: seq<string>, userSaid: string, assistantSaid: string, stamp: string, i: nat)
    requires i < |bank|
    requires userSaid != "" || assistantSaid != ""
    ensures var r := RecordTurn(bank, userSaid, assistantSaid, stamp);
      (|bank| + 2 - i <= HistoryLimit <==> i + |r| >= |bank| + 2)
      && (i + |r| >= |bank| + 2 ==> r[i + |r| - (|bank| + 2)] == bank[i])
  {
    SurvivorInSuffix(bank, UserEntry(stamp, userSaid), AssistantEntry(assistantSaid),
                     RecordTurn(bank, userSaid, assistantSaid, stamp), i);
  }

  /** Entry `i` of `bank` sits at `i + |r| - |bank| - 2` in the kept suffix
      `r` of `bank + [a, b]`, when the suffix reaches back that far. */
  lemma SurvivorInSuffix(bank: seq<string>, a: string, b: string, r: seq<string>, i: nat)
    requires i < |bank|
    requires |r| == (if |bank| + 2 < HistoryLimit then |bank| + 2 else HistoryLimit)
    requires r == (bank + [a, b])[|bank| + 2 - |r|..]
    ensures |bank| + 2 - i <= HistoryLimit <==> i + |r| >= |bank| + 2
    ensures i + |r| >= |bank| + 2 ==> r[i + |r| - (|bank| + 2)] == bank[i]
  {
    var grown := bank + [a, b];
    if i + |r| >= |bank| + 2 {
      assert r[i + |r| - (|bank| + 2)] == grown[i];
    }
  }
}
