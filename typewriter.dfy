/**
 * The onboarding terminal: while the app is in its onboarding state, an
 * interval reveals the script one character per tick. The refs
 * `lineIndex` and `charIndex` say where the reveal is; `displayedLines`
 * holds the lines shown so far, the last one partial. When the last line
 * is complete the interval is cleared and the move to the upload screen
 * is scheduled.
 *
 * Each tick's state change is modelled; the 50 ms period and the
 * 1.5 s delay before the move are not.
 */
module Typewriter {

  /** The onboarding script. */
  const TerminalLines: seq<string> := [
    "Booting TruthCard.AI v1.5...",
    "Initializing Cybernetic Roast Engine...",
    "Calibrating Cringe Detectors...",
    "WARNING: Brutal Honesty Enabled.",
    "Drag and drop your dating profile screenshot to begin.",
    "We are currently in development stage",
    "Please consider clicking the SELECT PRO TIER"
  ]

  /** The terminal's state: the lines shown, the two refs, whether the interval runs, whether the move to upload is scheduled. */
  datatype Terminal = Terminal(
    displayed: seq<string>,
    lineIndex: nat,
    charIndex: nat,
    running: bool,
    advanceScheduled: bool)

  /** At mount: nothing shown, both refs at 0, no interval. */
  const Mounted := Terminal([], 0, 0, false, false)

  /** Entering onboarding: one empty line is shown and the interval starts; the refs keep their values. */
  function Started(t: Terminal): Terminal
  {
    t.(displayed := [""], running := true)
  }

  /** Total number of characters in a script. */
  function SumLen(lines: seq<string>): nat
  {
    if lines == [] then 0 else |lines[0]| + SumLen(lines[1..])
  }

  /** Ticks a whole script takes: one per character, plus one per line to move past its end. */
  function TotalTicks(lines: seq<string>): nat
  {
    SumLen(lines) + |lines|
  }

  /**
   * The reveal so far: before the end, the lines before lineIndex are
   * shown whole and line lineIndex up to charIndex; at the end, the whole
   * script is shown, the interval is cleared and the move is scheduled.
   */
  ghost predicate Inv(lines: seq<string>, t: Terminal)
  {
    && |lines| > 0
    && t.lineIndex <= |lines|
    && (t.lineIndex < |lines| ==>
          && |t.displayed| == t.lineIndex + 1
          && t.charIndex <= |lines[t.lineIndex]|
          && t.displayed[..t.lineIndex] == lines[..t.lineIndex]
          && t.displayed[t.lineIndex] == lines[t.lineIndex][..t.charIndex]
          && t.running && !t.advanceScheduled)
    && (t.lineIndex == |lines| ==>
          t.displayed == lines && t.charIndex == 0 && !t.running && t.advanceScheduled)
  }

  /** One interval tick. */
  function Step(lines: seq<string>, t: Terminal): Terminal
    requires Inv(lines, t)
  {
    if t.lineIndex < |lines| then
      var currentLine := lines[t.lineIndex];
      if t.charIndex < |currentLine| then
        t.(displayed := t.displayed[t.lineIndex := currentLine[..t.charIndex + 1]],
           charIndex := t.charIndex + 1)
      else
        var next := t.lineIndex + 1;
        if next < |lines| then
          t.(lineIndex := next, charIndex := 0, displayed := t.displayed + [""])
        else
          t.(lineIndex := next, charIndex := 0, running := false, advanceScheduled := true)
    else
      t.(running := false)
  }

  /** Ticks still to come before the interval clears. */
  function Remaining(lines: seq<string>, t: Terminal): int
  {
    if t.lineIndex <= |lines| then SumLen(lines[t.lineIndex..]) - t.charIndex + (|lines| - t.lineIndex)
    else 0
  }

  /** k ticks from t (the interval stops ticking once cleared). */
  function Steps(lines: seq<string>, t: Terminal, k: nat): Terminal
    requires Inv(lines, t)
    decreases k
  {
    if k == 0 || !t.running then t
    else
      StepKeepsInv(lines, t);
      Steps(lines, Step(lines, t), k - 1)
  }

  // ---------------------------------------------------------------------
  // Properties of the reveal

  lemma SumLenFrom(lines: seq<string>, i: nat)
    requires i < |lines|
    ensures SumLen(lines[i..]) == |lines[i]| + SumLen(lines[i + 1..])
  {
    assert lines[i..][1..] == lines[i + 1..];
  }

  /** Starting from the refs at 0 begins the reveal. */
  lemma StartedInv(lines: seq<string>)
    requires |lines| > 0
    ensures Inv(lines, Started(Mounted))
    ensures Remaining(lines, Started(Mounted)) == TotalTicks(lines)
  {
    assert lines[0..] == lines;
  }

  /** Each tick keeps the reveal consistent, and while the interval runs it uses up exactly one remaining tick. */
  lemma StepKeepsInv(lines: seq<string>, t: Terminal)
    requires Inv(lines, t)
    ensures Inv(lines, Step(lines, t))
    ensures t.running ==> Remaining(lines, Step(lines, t)) == Remaining(lines, t) - 1
    ensures !t.running ==> Step(lines, t) == t
  {
    var t' := Step(lines, t);
    if t.lineIndex < |lines| {
      var i := t.lineIndex;
      var cur := lines[i];
      SumLenFrom(lines, i);
      if t.charIndex < |cur| {
        assert t'.displayed[..i] == t.displayed[..i];
        assert cur[..t.charIndex + 1] == cur[..t'.charIndex];
      } else {
        assert t.displayed[i] == cur;
        assert t.displayed[..i + 1] == t.displayed[..i] + [t.displayed[i]];
        assert lines[..i + 1] == lines[..i] + [lines[i]];
        if i + 1 < |lines| {
          assert t'.displayed[..i + 1] == t.displayed;
        } else {
          assert t.displayed == t.displayed[..i + 1];
          assert lines == lines[..i + 1];
          assert lines[i + 1..] == [];
        }
      }
    }
  }

  /** While the reveal is not at its end, at least one tick remains; at the end, none does. */
  lemma RemainingZeroAtEnd(lines: seq<string>, t: Terminal)
    requires Inv(lines, t)
    ensures Remaining(lines, t) >= 0
    ensures Remaining(lines, t) == 0 <==> !t.running
  {
    if t.lineIndex < |lines| {
      SumLenFrom(lines, t.lineIndex);
    } else {
      assert lines[t.lineIndex..] == [];
    }
  }

  /** k ticks use up k remaining ticks, or all of them if fewer remain. */
  lemma {:induction false} StepsConsume(lines: seq<string>, t: Terminal, k: nat)
    requires Inv(lines, t)
    ensures Inv(lines, Steps(lines, t, k))
    ensures Remaining(lines, Steps(lines, t, k)) == if k <= Remaining(lines, t) then Remaining(lines, t) - k else 0
    decreases k
  {
    RemainingZeroAtEnd(lines, t);
    if k > 0 && t.running {
      StepKeepsInv(lines, t);
      StepsConsume(lines, Step(lines, t), k - 1);
    }
  }

  /**
   * The reveal takes exactly TotalTicks(lines) ticks: after fewer the
   * interval still runs, after that many the whole script is shown, the
   * interval is cleared and the move to upload is scheduled.
   */
  lemma RevealTakesTotalTicks(lines: seq<string>, k: nat)
    requires |lines| > 0
    ensures var t := Steps(lines, Started(Mounted), k);
      (k < TotalTicks(lines) ==> t.running)
      && (k >= TotalTicks(lines) ==> t.displayed == lines && !t.running && t.advanceScheduled)
  {
    StartedInv(lines);
    StepsConsume(lines, Started(Mounted), k);
    RemainingZeroAtEnd(lines, Steps(lines, Started(Mounted), k));
  }

  /** The onboarding script is revealed in 272 ticks: 265 characters and 7 line ends. */
  lemma ScriptTicks()
    ensures SumLen(TerminalLines) == 265
    ensures TotalTicks(TerminalLines) == 272
  {
  }

  /** The terminal of the component: the refs and the displayed lines, updated in place by the interval. */
  class Typewriter {
    const lines: seq<string>
    var displayedLines: seq<string>
    var lineIndex: nat
    var charIndex: nat
    var running: bool
    var advanceScheduled: bool

    function State(): Terminal
      reads this
    {
      Terminal(displayedLines, lineIndex, charIndex, running, advanceScheduled)
    }

    constructor (lines: seq<string>)
      ensures this.lines == lines && State() == Mounted
    {
      this.lines := lines;
      displayedLines := [];
      lineIndex, charIndex := 0, 0;
      running, advanceScheduled := false, false;
    }

    /** The effect run on entering onboarding. */
    method Start()
      modifies this
      ensures State() == Started(old(State()))
    {
      displayedLines := [""];
      running := true;
    }

    /** The interval callback. */
    method Tick()
      requires Inv(lines, State())
      modifies this
      ensures State() == Step(lines, old(State()))
    {
      if lineIndex < |lines| {
        var currentLine := lines[lineIndex];
        if charIndex < |currentLine| {
          displayedLines := displayedLines[lineIndex := currentLine[..charIndex + 1]];
          charIndex := charIndex + 1;
        } else {
          lineIndex := lineIndex + 1;
          charIndex := 0;
          if lineIndex < |lines| {
            displayedLines := displayedLines + [""];
          } else {
            running := false;
            advanceScheduled := true;
          }
        }
      } else {
        running := false;
      }
    }

    /** Onboarding from mount: start, then tick until the interval is cleared; returns the number of ticks. */
    method Play() returns (ticks: nat)
      requires |lines| > 0 && State() == Mounted
      modifies this
      ensures ticks == TotalTicks(lines)
      ensures displayedLines == lines && !running && advanceScheduled
    {
      Start();
      StartedInv(lines);
      ticks := 0;
      while running
        invariant Inv(lines, State())
        invariant ticks + Remaining(lines, State()) == TotalTicks(lines)
        decreases Remaining(lines, State())
      {
        StepKeepsInv(lines, State());
        Tick();
        ticks := ticks + 1;
      }
      RemainingZeroAtEnd(lines, State());
    }
  }

  /** The component's onboarding: a terminal over the script, mounted and played to its end. */
  method Onboard() returns (shown: seq<string>, ticks: nat)
    ensures shown == TerminalLines
    ensures ticks == 272
  {
    var terminal := new Typewriter(TerminalLines);
    ScriptTicks();
    ticks := terminal.Play();
    shown := terminal.displayedLines;
  }
}
