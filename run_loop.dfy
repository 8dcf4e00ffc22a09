/** What `Configuration.run` does with the clients it launches, as functions
    of what the operating system provides.

    Each launched client is known by its `Session`: the Java PIDs listed just
    after it started, and its output lines, each paired with the PID list
    that would be taken if the launcher asked right after reading that line.
    Starting a process, reading its output, the log file, the sleep after a
    kill and the error dialogs are not part of this model; a kill is recorded
    as the PID it was sent to. */
module ConfigurationRun {
  import opened Text

  /** One line of a client's output, with the Java PIDs running then. */
  datatype Line = Line(text: string, pids: seq<int>)

  /** One launched client: the PIDs running when it started, and its output. */
  datatype Session = Session(pidsBefore: seq<int>, output: seq<Line>)

  /** What a trimmed output line means to the launcher. */
  datatype Signal = Fatal | Loaded | Exited | Other

  const OutOfDate := "client is out of date"
  const MissingWebWalking := "update web walking"
  const BadLogin := "invalid username or password"
  const LoadedMarker := "Successfully loaded OSBot"
  const BotExited := "Bot exited"
  const ScriptWord := "Script"
  const ScriptExited := "has exited!"

  /** The three error markers, looked for in the lower-cased line. */
  predicate IsFatal(line: string)
  {
    var lower := ToLower(line);
    Contains(lower, OutOfDate) || Contains(lower, MissingWebWalking) || Contains(lower, BadLogin)
  }

  /** The markers of a client that has finished its script. */
  predicate IsExit(line: string)
  {
    Contains(line, BotExited) || (Contains(line, ScriptWord) && EndsWith(line, ScriptExited))
  }

  /** The branches of the read loop, tried in order; the exit markers count
      only when the client is to be closed. */
  function Classify(line: string, closeClient: bool): (r: Signal)
    ensures r == Fatal <==> IsFatal(line)
    ensures r == Loaded <==> !IsFatal(line) && Contains(line, LoadedMarker)
    ensures r == Exited ==> closeClient && IsExit(line)
  {
    if IsFatal(line) then Fatal
    else if Contains(line, LoadedMarker) then Loaded
    else if closeClient && IsExit(line) then Exited
    else Other
  }

  /** `List.removeAll`: the PIDs of `after` that `before` does not list, in
      order. */
  function NewPids(before: seq<int>, after: seq<int>): (r: seq<int>)
    ensures |r| <= |after|
    ensures forall p :: p in r <==> p in after && p !in before
    ensures forall p :: multiset(r)[p] == if p in before then 0 else multiset(after)[p]
  {
    if |after| == 0 then []
    else
      var head := if after[0] in before then [] else [after[0]];
      var rest := NewPids(before, after[1..]);
      assert multiset(after) == multiset{after[0]} + multiset(after[1..]) by {
        assert after == [after[0]] + after[1..];
      }
      assert multiset(head + rest) == multiset(head) + multiset(rest);
      head + rest
  }

  /** `a` is `b` with some elements dropped, the rest in their order. */
  predicate Subsequence(a: seq<int>, b: seq<int>)
    decreases |b|
  {
    |a| == 0 || (|b| > 0 && ((a[0] == b[0] && Subsequence(a[1..], b[1..])) || Subsequence(a, b[1..])))
  }

  /** `removeAll` keeps the surviving PIDs in the order the later list has
      them. */
  lemma {:induction false} NewPidsInOrder(before: seq<int>, after: seq<int>)
    ensures Subsequence(NewPids(before, after), after)
    decreases |after|
  {
    if |after| > 0 {
      NewPidsInOrder(before, after[1..]);
      var r := NewPids(before, after);
      if after[0] !in before {
        assert r[0] == after[0] && r[1..] == NewPids(before, after[1..]);
      } else {
        assert r == NewPids(before, after[1..]);
      }
    }
  }

  /** One Java process that appeared between the two listings is the one
      found. */
  lemma NewPidsExample()
    ensures NewPids([10, 11], [10, 11, 42]) == [42]
    ensures Resolve(-1, [10, 11], [10, 11, 42]) == 42
  {
    assert NewPids([10, 11], [42]) == [42];
    assert [10, 11, 42][1..] == [11, 42] && [11, 42][1..] == [42];
  }

  /** The tracked PID after a load marker: the new Java process when exactly
      one appeared, otherwise unchanged. */
  function Resolve(processID: int, before: seq<int>, after: seq<int>): (r: int)
    ensures r == processID || (r in after && r !in before)
    ensures |NewPids(before, after)| == 1 ==> NewPids(before, after) == [r]
  {
    var appeared := NewPids(before, after);
    if |appeared| == 1 then appeared[0] else processID
  }

  /** Where reading a client's output stops. */
  datatype ScanEnd = ScanEnd(fatal: bool, processID: int, read: nat)

  /** The read loop from line `i` on, tracking `processID`: it stops after a
      fatal line, after an exit line, or at the end of the output. */
  function Scan(output: seq<Line>, i: nat, before: seq<int>, closeClient: bool, processID: int): (r: ScanEnd)
    requires i <= |output|
    ensures i <= r.read <= |output|
    decreases |output| - i
  {
    if i == |output| then ScanEnd(false, processID, i)
    else
      match Classify(Trim(output[i].text), closeClient)
      case Fatal => ScanEnd(true, processID, i + 1)
      case Exited => ScanEnd(false, processID, i + 1)
      case Loaded => Scan(output, i + 1, before, closeClient, Resolve(processID, before, output[i].pids))
      case Other => Scan(output, i + 1, before, closeClient, processID)
  }

  /** The raw text of each line, as written to the log file. */
  function Texts(lines: seq<Line>): (r: seq<string>)
    ensures |r| == |lines|
    ensures forall i :: 0 <= i < |lines| ==> r[i] == lines[i].text
  {
    seq(|lines|, i requires 0 <= i < |lines| => lines[i].text)
  }

  /** The launcher's state and what it has done so far. */
  datatype RunState = RunState(
    running: bool,
    processID: int,
    launched: seq<seq<string>>,
    killed: seq<int>,
    logged: seq<string>,
    aborted: bool)

  /** One pass of the command loop: launch the command, read its client's
      output, then kill the tracked client, unless a fatal line ends the
      whole run first. */
  function Launch(command: seq<string>, s: Session, closeClient: bool, st: RunState): (r: RunState)
    ensures !r.running && r.launched == st.launched + [command]
    ensures r.aborted <==> Scan(s.output, 0, s.pidsBefore, closeClient, -1).fatal
    ensures !r.aborted ==> r.processID == -1
  {
    var scan := Scan(s.output, 0, s.pidsBefore, closeClient, -1);
    var launched := st.launched + [command];
    var logged := st.logged + Texts(s.output[..scan.read]);
    if scan.fatal then RunState(false, scan.processID, launched, st.killed, logged, true)
    else
      var killed := if scan.processID != -1 then st.killed + [scan.processID] else st.killed;
      RunState(false, -1, launched, killed, logged, false)
  }

  /** The command loop from command `k` on. */
  function RunFrom(commands: seq<seq<string>>, sessions: seq<Session>, closeClient: bool, k: nat, st: RunState): (r: RunState)
    requires |sessions| == |commands| && k <= |commands|
    ensures k < |commands| ==> !r.running
    ensures |st.launched| < |r.launched| <= |st.launched| + |commands| - k || (k == |commands| && r == st)
    decreases |commands| - k
  {
    if k == |commands| then st
    else
      var next := Launch(commands[k], sessions[k], closeClient, st);
      if next.aborted then next else RunFrom(commands, sessions, closeClient, k + 1, next)
  }

  // ---------------------------------------------------------------------------
  // One step at a time, as the launcher's loops take them
  // ---------------------------------------------------------------------------

  lemma ScanNext(output: seq<Line>, i: nat, before: seq<int>, closeClient: bool, processID: int)
    requires i < |output|
    ensures var signal := Classify(Trim(output[i].text), closeClient);
            var r := Scan(output, i, before, closeClient, processID);
            && (signal == Fatal ==> r == ScanEnd(true, processID, i + 1))
            && (signal == Exited ==> r == ScanEnd(false, processID, i + 1))
            && (signal == Loaded ==> r == Scan(output, i + 1, before, closeClient, Resolve(processID, before, output[i].pids)))
            && (signal == Other ==> r == Scan(output, i + 1, before, closeClient, processID))
  {
  }

  /** Line `m - 1`, the last one a reading up to `m` read, means `signal`. */
  predicate StopsAt(output: seq<Line>, closeClient: bool, m: nat, signal: Signal)
  {
    0 < m <= |output| && Classify(Trim(output[m - 1].text), closeClient) == signal
  }

  /** A reading that reports a fatal line stops right after it. */
  lemma {:induction false} ScanStopsFatal(output: seq<Line>, i: nat, before: seq<int>, closeClient: bool, processID: int)
    requires i <= |output|
    ensures var r := Scan(output, i, before, closeClient, processID);
            r.fatal ==> i < r.read && StopsAt(output, closeClient, r.read, Fatal)
    decreases |output| - i
  {
    if i < |output| {
      var signal := Classify(Trim(output[i].text), closeClient);
      ScanNext(output, i, before, closeClient, processID);
      if signal == Loaded {
        ScanStopsFatal(output, i + 1, before, closeClient, Resolve(processID, before, output[i].pids));
      } else if signal == Other {
        ScanStopsFatal(output, i + 1, before, closeClient, processID);
      } else {
        assert StopsAt(output, closeClient, i + 1, signal);
      }
    }
  }

  /** Any other reading that ends before the last line stops right after an
      exit line. */
  lemma {:induction false} ScanStopsExit(output: seq<Line>, i: nat, before: seq<int>, closeClient: bool, processID: int)
    requires i <= |output|
    ensures var r := Scan(output, i, before, closeClient, processID);
            !r.fatal && r.read < |output| ==> i < r.read && StopsAt(output, closeClient, r.read, Exited)
    decreases |output| - i
  {
    if i < |output| {
      var signal := Classify(Trim(output[i].text), closeClient);
      ScanNext(output, i, before, closeClient, processID);
      var r := Scan(output, i, before, closeClient, processID);
      if signal == Loaded {
        ScanStopsExit(output, i + 1, before, closeClient, Resolve(processID, before, output[i].pids));
      } else if signal == Other {
        ScanStopsExit(output, i + 1, before, closeClient, processID);
      } else if signal == Exited {
        assert r.read == i + 1 && StopsAt(output, closeClient, i + 1, Exited);
      } else {
        assert r.fatal;
      }
    }
  }

  /** Every line from `lo` up to `hi` is a load line or an ordinary one, so
      the read loop passes over it. */
  predicate Passing(output: seq<Line>, closeClient: bool, lo: nat, hi: nat)
    decreases hi - lo
  {
    lo >= hi
    || (lo < |output|
        && Classify(Trim(output[lo].text), closeClient) in {Loaded, Other}
        && Passing(output, closeClient, lo + 1, hi))
  }

  /** The first fatal or exit line stops the reading just after it, and the
      reading is fatal exactly when that line is a fatal one. */
  lemma {:induction false} ScanStopsFirst(output: seq<Line>, i: nat, m: nat, before: seq<int>, closeClient: bool,
                                          processID: int)
    requires i <= m < |output|
    requires Classify(Trim(output[m].text), closeClient) in {Fatal, Exited}
    requires Passing(output, closeClient, i, m)
    ensures var r := Scan(output, i, before, closeClient, processID);
            r.read == m + 1 && (r.fatal <==> IsFatal(Trim(output[m].text)))
    decreases m - i
  {
    ScanNext(output, i, before, closeClient, processID);
    if i < m {
      var signal := Classify(Trim(output[i].text), closeClient);
      assert Passing(output, closeClient, i + 1, m) && (signal == Loaded || signal == Other);
      if signal == Loaded {
        ScanStopsFirst(output, i + 1, m, before, closeClient, Resolve(processID, before, output[i].pids));
      } else {
        ScanStopsFirst(output, i + 1, m, before, closeClient, processID);
      }
    }
  }

  /** With no fatal or exit line left, the whole output is read and the
      reading is not fatal. */
  lemma {:induction false} ScanNoStop(output: seq<Line>, i: nat, before: seq<int>, closeClient: bool, processID: int)
    requires i <= |output|
    requires Passing(output, closeClient, i, |output|)
    ensures var r := Scan(output, i, before, closeClient, processID);
            r.read == |output| && !r.fatal
    decreases |output| - i
  {
    if i < |output| {
      var signal := Classify(Trim(output[i].text), closeClient);
      assert Passing(output, closeClient, i + 1, |output|) && (signal == Loaded || signal == Other);
      ScanNext(output, i, before, closeClient, processID);
      if signal == Loaded {
        ScanNoStop(output, i + 1, before, closeClient, Resolve(processID, before, output[i].pids));
      } else {
        ScanNoStop(output, i + 1, before, closeClient, processID);
      }
    }
  }

  lemma TextsSnoc(lines: seq<Line>, i: nat)
    requires i < |lines|
    ensures Texts(lines[..i + 1]) == Texts(lines[..i]) + [lines[i].text]
  {
    assert lines[..i + 1] == lines[..i] + [lines[i]];
  }

  /** One unfolding of the command loop: the pass on command `k` ends the
      run when it aborts, and the loop goes on from its state otherwise. */
  lemma RunFromNext(commands: seq<seq<string>>, sessions: seq<Session>, closeClient: bool, k: nat, st: RunState,
                    next: RunState)
    requires |sessions| == |commands| && k < |commands|
    requires next == Launch(commands[k], sessions[k], closeClient, st)
    ensures RunFrom(commands, sessions, closeClient, k, st)
         == if next.aborted then next else RunFrom(commands, sessions, closeClient, k + 1, next)
  {
  }

  // ---------------------------------------------------------------------------
  // Properties
  // ---------------------------------------------------------------------------

  lemma LowerTwice(s: string)
    ensures ToLower(ToLower(s)) == ToLower(s)
  {
  }

  /** The error markers are found whatever the case of the line. */
  lemma FatalIgnoresCase(line: string, closeClient: bool)
    ensures Classify(ToLower(line), closeClient) == Fatal <==> Classify(line, closeClient) == Fatal
  {
    LowerTwice(line);
  }

  /** An exit marker ends the reading only when the client is to be closed. */
  lemma ExitNeedsCloseClient(line: string)
    ensures Classify(line, false) != Exited
    ensures IsExit(line) && !IsFatal(line) && !Contains(line, LoadedMarker) ==> Classify(line, true) == Exited
  {
  }

  /** Without `closeClient`, a client's output is read to its end unless a
      fatal line comes first. */
  lemma {:induction false} ReadsToEnd(output: seq<Line>, i: nat, before: seq<int>, processID: int)
    requires i <= |output|
    ensures var r := Scan(output, i, before, false, processID);
            r.fatal || r.read == |output|
    decreases |output| - i
  {
    if i < |output| {
      var signal := Classify(Trim(output[i].text), false);
      ExitNeedsCloseClient(Trim(output[i].text));
      if signal == Loaded {
        ReadsToEnd(output, i + 1, before, Resolve(processID, before, output[i].pids));
      } else if signal == Other {
        ReadsToEnd(output, i + 1, before, processID);
      }
    }
  }

  /** Line `j` is a load line at which exactly one new Java process, `p`,
      had appeared. */
  predicate ResolvedAt(output: seq<Line>, before: seq<int>, closeClient: bool, j: nat, p: int)
  {
    j < |output| && Classify(Trim(output[j].text), closeClient) == Loaded && NewPids(before, output[j].pids) == [p]
  }

  /** The PID a client's reading ends with is the one it started with, or
      the single new PID of a load line `j` it read. */
  lemma {:induction false} ScanTracks(output: seq<Line>, i: nat, before: seq<int>, closeClient: bool, processID: int)
    returns (j: nat)
    requires i <= |output|
    ensures var r := Scan(output, i, before, closeClient, processID);
            r.processID == processID || (i <= j < r.read && ResolvedAt(output, before, closeClient, j, r.processID))
    decreases |output| - i
  {
    j := i;
    if i < |output| {
      var signal := Classify(Trim(output[i].text), closeClient);
      if signal == Loaded {
        var next := Resolve(processID, before, output[i].pids);
        var later := ScanTracks(output, i + 1, before, closeClient, next);
        var r := Scan(output, i + 1, before, closeClient, next);
        assert Scan(output, i, before, closeClient, processID) == r;
        if r.processID != next {
          j := later;
        } else if next != processID {
          assert NewPids(before, output[i].pids) == [next];
        }
      } else if signal == Other {
        j := ScanTracks(output, i + 1, before, closeClient, processID);
        assert Scan(output, i, before, closeClient, processID) == Scan(output, i + 1, before, closeClient, processID);
      }
    }
  }

  /** Line `m` is a load line at which exactly one new Java process had
      appeared, so reading it changes the tracked PID. */
  predicate Resolving(output: seq<Line>, before: seq<int>, closeClient: bool, m: nat)
  {
    m < |output| && Classify(Trim(output[m].text), closeClient) == Loaded && |NewPids(before, output[m].pids)| == 1
  }

  /** No line from `lo` up to `hi` is a resolving load line. */
  predicate NoneResolving(output: seq<Line>, before: seq<int>, closeClient: bool, lo: nat, hi: nat)
    decreases hi - lo
  {
    lo >= hi || (!Resolving(output, before, closeClient, lo) && NoneResolving(output, before, closeClient, lo + 1, hi))
  }

  /** Reading keeps the tracked PID when none of the lines it reads is a
      resolving load line. */
  lemma {:induction false} ScanKeeps(output: seq<Line>, i: nat, before: seq<int>, closeClient: bool, processID: int)
    requires i <= |output|
    requires NoneResolving(output, before, closeClient, i, Scan(output, i, before, closeClient, processID).read)
    ensures Scan(output, i, before, closeClient, processID).processID == processID
    decreases |output| - i
  {
    if i < |output| {
      var signal := Classify(Trim(output[i].text), closeClient);
      ScanNext(output, i, before, closeClient, processID);
      if signal == Loaded {
        ScanKeeps(output, i + 1, before, closeClient, processID);
      } else if signal == Other {
        ScanKeeps(output, i + 1, before, closeClient, processID);
      }
    }
  }

  /** The PID a client's reading ends with is the single new Java process of
      the last resolving load line it read. */
  lemma {:induction false} ScanResolves(output: seq<Line>, i: nat, before: seq<int>, closeClient: bool, processID: int,
                                        j: nat, p: int)
    requires i <= j && ResolvedAt(output, before, closeClient, j, p)
    requires j < Scan(output, i, before, closeClient, processID).read
    requires NoneResolving(output, before, closeClient, j + 1, Scan(output, i, before, closeClient, processID).read)
    ensures Scan(output, i, before, closeClient, processID).processID == p
    decreases |output| - i
  {
    var signal := Classify(Trim(output[i].text), closeClient);
    ScanNext(output, i, before, closeClient, processID);
    if i == j {
      ScanKeeps(output, i + 1, before, closeClient, p);
    } else if signal == Loaded {
      ScanResolves(output, i + 1, before, closeClient, Resolve(processID, before, output[i].pids), j, p);
    } else if signal == Other {
      ScanResolves(output, i + 1, before, closeClient, processID, j, p);
    } else {
      assert false;
    }
  }

  /** One pass only appends to what was launched, killed and logged, and
      kills at most the one client it launched. */
  lemma LaunchKeeps(command: seq<string>, s: Session, closeClient: bool, st: RunState)
    ensures var next := Launch(command, s, closeClient, st);
            && next.launched == st.launched + [command]
            && st.logged <= next.logged
            && st.killed <= next.killed && |next.killed| <= |st.killed| + 1
  {
  }

  /** The PIDs a client's load lines resolved: each load line at which
      exactly one new Java process had appeared contributes that process. */
  ghost function ResolvedBy(s: Session, closeClient: bool): set<int>
  {
    set j | 0 <= j < |s.output| && Classify(Trim(s.output[j].text), closeClient) == Loaded
                                && |NewPids(s.pidsBefore, s.output[j].pids)| == 1
          :: NewPids(s.pidsBefore, s.output[j].pids)[0]
  }

  /** The PIDs resolved by the clients of commands `k` onwards. */
  ghost function ResolvedFrom(sessions: seq<Session>, closeClient: bool, k: nat): set<int>
    decreases |sessions| - k
  {
    if k >= |sessions| then {} else ResolvedBy(sessions[k], closeClient) + ResolvedFrom(sessions, closeClient, k + 1)
  }

  /** A PID resolved by a load line of a client is among those it resolves. */
  lemma ResolvedByLine(s: Session, closeClient: bool, j: nat, p: int)
    requires ResolvedAt(s.output, s.pidsBefore, closeClient, j, p)
    ensures p in ResolvedBy(s, closeClient)
  {
    assert NewPids(s.pidsBefore, s.output[j].pids)[0] == p;
  }

  /** What one pass kills is the client's resolved PID. */
  lemma LaunchKills(command: seq<string>, s: Session, closeClient: bool, st: RunState)
    ensures var next := Launch(command, s, closeClient, st);
            |next.killed| > |st.killed| ==> next.killed[|st.killed|] in ResolvedBy(s, closeClient)
  {
    var scan := Scan(s.output, 0, s.pidsBefore, closeClient, -1);
    var j := ScanTracks(s.output, 0, s.pidsBefore, closeClient, -1);
    if !scan.fatal && scan.processID != -1 {
      ResolvedByLine(s, closeClient, j, scan.processID);
    }
  }

  /** The reading of a client ends past its load line `j`, and no later line
      it read resolved another process. */
  predicate LastResolved(s: Session, closeClient: bool, j: nat, p: int)
  {
    var read := Scan(s.output, 0, s.pidsBefore, closeClient, -1).read;
    && ResolvedAt(s.output, s.pidsBefore, closeClient, j, p) && j < read
    && NoneResolving(s.output, s.pidsBefore, closeClient, j + 1, read)
  }

  /** A pass whose client ended without a fatal line kills the process its
      last resolving load line found, and ends idle with no PID tracked. */
  lemma LaunchKillsResolved(command: seq<string>, s: Session, closeClient: bool, st: RunState, j: nat, p: int)
    requires QuietSession(s, closeClient) && LastResolved(s, closeClient, j, p)
    ensures var next := Launch(command, s, closeClient, st);
            && next.killed == st.killed + (if p != -1 then [p] else [])
            && next.processID == -1 && !next.running && !next.aborted
  {
    ScanResolves(s.output, 0, s.pidsBefore, closeClient, -1, j, p);
  }

  /** A pass whose client read no resolving load line kills nothing. */
  lemma LaunchKillsNothing(command: seq<string>, s: Session, closeClient: bool, st: RunState)
    requires NoneResolving(s.output, s.pidsBefore, closeClient, 0, Scan(s.output, 0, s.pidsBefore, closeClient, -1).read)
    ensures var next := Launch(command, s, closeClient, st);
            next.killed == st.killed && next.processID == -1
  {
    ScanKeeps(s.output, 0, s.pidsBefore, closeClient, -1);
  }

  /** `r` extends `st` with commands taken in order from `commands[k..]`,
      killing at most one client per launched command. */
  predicate Extends(st: RunState, r: RunState, commands: seq<seq<string>>, k: nat)
    requires k <= |commands|
  {
    && st.launched <= r.launched && st.killed <= r.killed && st.logged <= r.logged
    && |r.launched| - |st.launched| <= |commands| - k
    && r.launched[|st.launched|..] == commands[k..k + (|r.launched| - |st.launched|)]
    && |r.killed| - |st.killed| <= |r.launched| - |st.launched|
  }

  lemma ExtendsStep(st: RunState, next: RunState, r: RunState, commands: seq<seq<string>>, k: nat)
    requires k < |commands|
    requires next.launched == st.launched + [commands[k]] && st.logged <= next.logged
    requires st.killed <= next.killed && |next.killed| <= |st.killed| + 1
    requires Extends(next, r, commands, k + 1)
    ensures Extends(st, r, commands, k)
  {
    assert r.launched[|st.launched|..] == [commands[k]] + r.launched[|next.launched|..];
  }

  lemma ExtendsSelf(st: RunState, commands: seq<seq<string>>, k: nat)
    requires k <= |commands|
    ensures Extends(st, st, commands, k)
  {
  }

  /** The loop only appends to what was launched, killed and logged, and
      launches the commands in order. */
  lemma {:induction false} RunFromKeeps(commands: seq<seq<string>>, sessions: seq<Session>, closeClient: bool, k: nat, st: RunState)
    requires |sessions| == |commands| && k <= |commands|
    ensures Extends(st, RunFrom(commands, sessions, closeClient, k, st), commands, k)
    decreases |commands| - k
  {
    if k == |commands| {
      ExtendsSelf(st, commands, k);
    } else {
      var next := Launch(commands[k], sessions[k], closeClient, st);
      LaunchKeeps(commands[k], sessions[k], closeClient, st);
      if next.aborted {
        ExtendsSelf(next, commands, k + 1);
        ExtendsStep(st, next, next, commands, k);
      } else {
        RunFromKeeps(commands, sessions, closeClient, k + 1, next);
        ExtendsStep(st, next, RunFrom(commands, sessions, closeClient, k + 1, next), commands, k);
      }
    }
  }

  /** Every PID in `killed` from position `from` on was resolved by a client
      from command `k` on. */
  ghost predicate KillsResolved(sessions: seq<Session>, closeClient: bool, k: nat, killed: seq<int>, from: nat)
  {
    forall n :: from <= n < |killed| ==> killed[n] in ResolvedFrom(sessions, closeClient, k)
  }

  lemma KillsStep(before: seq<int>, middle: seq<int>, after: seq<int>, now: set<int>, later: set<int>)
    requires before <= middle <= after && |middle| <= |before| + 1
    requires |middle| > |before| ==> middle[|before|] in now
    requires forall n :: |middle| <= n < |after| ==> after[n] in later
    ensures forall n :: |before| <= n < |after| ==> after[n] in now + later
  {
  }

  /** Every PID the launcher kills is the single new Java process that
      appeared when some client reported it had loaded. */
  lemma {:induction false} KilledWereResolved(commands: seq<seq<string>>, sessions: seq<Session>, closeClient: bool, k: nat, st: RunState)
    requires |sessions| == |commands| && k <= |commands|
    ensures KillsResolved(sessions, closeClient, k, RunFrom(commands, sessions, closeClient, k, st).killed, |st.killed|)
    decreases |commands| - k
  {
    if k < |commands| {
      var next := Launch(commands[k], sessions[k], closeClient, st);
      LaunchKeeps(commands[k], sessions[k], closeClient, st);
      LaunchKills(commands[k], sessions[k], closeClient, st);
      var now := ResolvedBy(sessions[k], closeClient);
      var later := ResolvedFrom(sessions, closeClient, k + 1);
      if next.aborted {
        KillsStep(st.killed, next.killed, next.killed, now, later);
      } else {
        var r := RunFrom(commands, sessions, closeClient, k + 1, next);
        KilledWereResolved(commands, sessions, closeClient, k + 1, next);
        RunFromKeeps(commands, sessions, closeClient, k + 1, next);
        KillsStep(st.killed, next.killed, r.killed, now, later);
      }
    }
  }

  /** The reading of a session ends without a fatal line. */
  predicate QuietSession(s: Session, closeClient: bool)
  {
    !Scan(s.output, 0, s.pidsBefore, closeClient, -1).fatal
  }

  /** Idle, with no PID tracked, and still going. */
  predicate Settled(st: RunState)
  {
    !st.running && st.processID == -1 && !st.aborted
  }

  /** No client from command `k` on reports a fatal error. */
  predicate AllQuiet(sessions: seq<Session>, closeClient: bool, k: nat)
  {
    forall m :: k <= m < |sessions| ==> QuietSession(sessions[m], closeClient)
  }

  lemma AllQuietStep(sessions: seq<Session>, closeClient: bool, k: nat)
    requires k < |sessions| && AllQuiet(sessions, closeClient, k)
    ensures QuietSession(sessions[k], closeClient) && AllQuiet(sessions, closeClient, k + 1)
  {
  }

  lemma QuietLaunch(command: seq<string>, s: Session, closeClient: bool, st: RunState)
    requires QuietSession(s, closeClient)
    ensures var next := Launch(command, s, closeClient, st);
            Settled(next) && next.launched == st.launched + [command]
  {
  }

  /** One unfolding of the command loop past a pass that did not abort. */
  lemma RunFromStep(commands: seq<seq<string>>, sessions: seq<Session>, closeClient: bool, k: nat, st: RunState)
    requires |sessions| == |commands| && k < |commands|
    requires !Launch(commands[k], sessions[k], closeClient, st).aborted
    ensures RunFrom(commands, sessions, closeClient, k, st)
         == RunFrom(commands, sessions, closeClient, k + 1, Launch(commands[k], sessions[k], closeClient, st))
  {
  }

  lemma QuietStep(st: RunState, next: RunState, r: RunState, commands: seq<seq<string>>, k: nat)
    requires k < |commands|
    requires next.launched == st.launched + [commands[k]] && Settled(next)
    requires r.launched == next.launched + commands[k + 1..]
    requires k + 1 < |commands| ==> Settled(r)
    requires k + 1 == |commands| ==> r == next
    ensures r.launched == st.launched + commands[k..] && Settled(r)
  {
    assert commands[k..] == [commands[k]] + commands[k + 1..];
  }

  /** When no client reports a fatal error, every command is launched, and
      the launcher ends idle with no PID tracked once at least one ran. */
  lemma {:induction false} QuietRunLaunchesAll(commands: seq<seq<string>>, sessions: seq<Session>, closeClient: bool, k: nat, st: RunState)
    requires |sessions| == |commands| && k <= |commands|
    requires AllQuiet(sessions, closeClient, k)
    ensures var r := RunFrom(commands, sessions, closeClient, k, st);
            && r.launched == st.launched + commands[k..]
            && (k < |commands| ==> Settled(r))
    decreases |commands| - k
  {
    if k == |commands| {
      assert commands[k..] == [];
    } else {
      var next := Launch(commands[k], sessions[k], closeClient, st);
      AllQuietStep(sessions, closeClient, k);
      QuietLaunch(commands[k], sessions[k], closeClient, st);
      RunFromStep(commands, sessions, closeClient, k, st);
      QuietRunLaunchesAll(commands, sessions, closeClient, k + 1, next);
      QuietStep(st, next, RunFrom(commands, sessions, closeClient, k + 1, next), commands, k);
    }
  }

  /** A fatal line ends the whole run at once: no later command is launched
      and the client's tracked PID is left running. */
  lemma FatalAbandons(commands: seq<seq<string>>, sessions: seq<Session>, closeClient: bool, k: nat, st: RunState)
    requires |sessions| == |commands| && k < |commands|
    requires !QuietSession(sessions[k], closeClient)
    ensures var r := RunFrom(commands, sessions, closeClient, k, st);
            var scan := Scan(sessions[k].output, 0, sessions[k].pidsBefore, closeClient, -1);
            && r.aborted && !r.running
            && r.launched == st.launched + [commands[k]]
            && r.killed == st.killed
            && r.processID == scan.processID
  {
  }

  /** A fatal line with no fatal or exit line before it aborts the run: the
      command is launched, the output is logged up to that line, nothing is
      killed and no later command is launched. */
  lemma FatalLineAborts(commands: seq<seq<string>>, sessions: seq<Session>, closeClient: bool, k: nat, st: RunState,
                        m: nat)
    requires |sessions| == |commands| && k < |commands|
    requires m < |sessions[k].output| && IsFatal(Trim(sessions[k].output[m].text))
    requires Passing(sessions[k].output, closeClient, 0, m)
    ensures var r := RunFrom(commands, sessions, closeClient, k, st);
            && r.aborted && !r.running
            && r.launched == st.launched + [commands[k]]
            && r.killed == st.killed
            && r.logged == st.logged + Texts(sessions[k].output[..m + 1])
  {
    var s := sessions[k];
    ScanStopsFirst(s.output, 0, m, s.pidsBefore, closeClient, -1);
    var next := Launch(commands[k], s, closeClient, st);
    assert next.aborted && next.killed == st.killed;
    assert next.logged == st.logged + Texts(s.output[..m + 1]);
    RunFromNext(commands, sessions, closeClient, k, st, next);
  }

  /** An exit line, when closing, with no fatal or exit line before it ends
      the pass without aborting, its output logged up to that line. */
  lemma ExitLineCloses(command: seq<string>, s: Session, closeClient: bool, st: RunState, m: nat)
    requires m < |s.output| && Classify(Trim(s.output[m].text), closeClient) == Exited
    requires Passing(s.output, closeClient, 0, m)
    ensures var r := Launch(command, s, closeClient, st);
            !r.aborted && r.processID == -1 && r.logged == st.logged + Texts(s.output[..m + 1])
  {
    ScanStopsFirst(s.output, 0, m, s.pidsBefore, closeClient, -1);
  }

  /** Output with no fatal or exit line is logged in full and the pass does
      not abort. */
  lemma NoStopLineReadsAll(command: seq<string>, s: Session, closeClient: bool, st: RunState)
    requires Passing(s.output, closeClient, 0, |s.output|)
    ensures var r := Launch(command, s, closeClient, st);
            !r.aborted && r.processID == -1 && r.logged == st.logged + Texts(s.output)
  {
    ScanNoStop(s.output, 0, s.pidsBefore, closeClient, -1);
    assert s.output[..|s.output|] == s.output;
  }
}
