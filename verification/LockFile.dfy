/** parse_locked_packages: exact pins, one per line, no name pinned to two versions. */
module LockFile {
  import opened Prelude
  import opened BuildModel
  import opened LockText

  type Lock = seq<Line>

  datatype Parsed = Parsed(packages: Packages) | NotAPin(line: Line) | Conflicting(name: string)

  /** The lines of a lock file, as the loop reads them. */
  function LockOf(text: string): (lock: Lock)
    ensures |lock| == |Lines(text)| && forall i :: 0 <= i < |lock| ==> lock[i] == Classify(Lines(text)[i])
  {
    var lines := Lines(text);
    seq(|lines|, i requires 0 <= i < |lines| => Classify(lines[i]))
  }

  function ParseOnto(packages: Packages, lock: Lock): Parsed
    decreases |lock|
  {
    if lock == [] then Parsed(packages)
    else
      match lock[0]
      case Skipped => ParseOnto(packages, lock[1..])
      case Malformed(_) => NotAPin(lock[0])
      case Pinned(name, version) =>
        if name in packages && packages[name] != version then Conflicting(name)
        else ParseOnto(packages[name := version], lock[1..])
  }

  function Parse(lock: Lock): Parsed {
    ParseOnto(map[], lock)
  }

  predicate Maps(packages: Packages, name: string, version: string) {
    name in packages && packages[name] == version
  }

  predicate Pins(lock: Lock, name: string, version: string) {
    exists i :: 0 <= i < |lock| && lock[i].Pinned? && lock[i].name == name && lock[i].version == version
  }

  /** No bad line, and no name pinned to two versions. */
  predicate Consistent(packages: Packages, lock: Lock) {
    && (forall i :: 0 <= i < |lock| ==> !lock[i].Malformed?)
    && (forall i :: 0 <= i < |lock| && lock[i].Pinned? && lock[i].name in packages ==>
          packages[lock[i].name] == lock[i].version)
    && (forall i, j ::
          0 <= i < |lock| && 0 <= j < |lock| && lock[i].Pinned? && lock[j].Pinned? && lock[i].name == lock[j].name ==>
          lock[i].version == lock[j].version)
  }

  lemma {:induction false} ParseOntoSpec(packages: Packages, lock: Lock)
    ensures ParseOnto(packages, lock).Parsed? <==> Consistent(packages, lock)
    ensures ParseOnto(packages, lock).Parsed? ==>
      forall name, version :: Maps(ParseOnto(packages, lock).packages, name, version) <==>
        Maps(packages, name, version) || Pins(lock, name, version)
    decreases |lock|
  {
    if lock != [] {
      var head, rest := lock[0], lock[1..];
      assert lock == [head] + rest;
      assert forall name, version :: Pins(lock, name, version) <==>
          Pins(rest, name, version) || (head.Pinned? && head.name == name && head.version == version) by {
        forall name, version
          ensures Pins(lock, name, version)
            <==> Pins(rest, name, version) || (head.Pinned? && head.name == name && head.version == version)
        {
          PinsSplit(lock, name, version);
        }
      }
      if head.Pinned? {
        if !(head.name in packages && packages[head.name] != head.version) {
          ParseOntoSpec(packages[head.name := head.version], rest);
          ConsistentSplit(packages, lock);
        }
      } else if head.Skipped? {
        ParseOntoSpec(packages, rest);
        assert Consistent(packages, lock) <==> Consistent(packages, rest) by {
          assert forall i :: 0 <= i < |rest| ==> rest[i] == lock[i + 1];
          assert forall i :: 0 < i < |lock| ==> lock[i] == rest[i - 1];
        }
      }
    }
  }

  lemma PinsSplit(lock: Lock, name: string, version: string)
    requires lock != []
    ensures Pins(lock, name, version) <==>
      Pins(lock[1..], name, version) || (lock[0].Pinned? && lock[0].name == name && lock[0].version == version)
  {
    var rest := lock[1..];
    if Pins(rest, name, version) {
      var i :| 0 <= i < |rest| && rest[i].Pinned? && rest[i].name == name && rest[i].version == version;
      assert lock[i + 1] == rest[i];
    }
    if Pins(lock, name, version) && !(lock[0].Pinned? && lock[0].name == name && lock[0].version == version) {
      var i :| 0 <= i < |lock| && lock[i].Pinned? && lock[i].name == name && lock[i].version == version;
      assert rest[i - 1] == lock[i];
    }
  }

  lemma ConsistentSplit(packages: Packages, lock: Lock)
    requires lock != [] && lock[0].Pinned?
    requires lock[0].name in packages ==> packages[lock[0].name] == lock[0].version
    ensures Consistent(packages, lock) <==> Consistent(packages[lock[0].name := lock[0].version], lock[1..])
  {
    var rest := lock[1..];
    assert forall i :: 0 <= i < |rest| ==> rest[i] == lock[i + 1];
    assert forall i :: 0 < i < |lock| ==> lock[i] == rest[i - 1];
  }

  /**
   * Classified lines parse exactly when each is a pin or skipped and no name has two versions;
   * then they yield exactly the pins.
   */
  lemma ParseSpec(lock: Lock)
    ensures Parse(lock).Parsed? <==> Consistent(map[], lock)
    ensures Parse(lock).Parsed? ==>
      forall name, version :: Maps(Parse(lock).packages, name, version) <==> Pins(lock, name, version)
  {
    ParseOntoSpec(map[], lock);
  }

  // ---------------------------------------------------------------- the text

  /** Some line of the text pins this version of this package, the name in canonical form. */
  ghost predicate Requests(text: string, name: string, version: string) {
    exists i :: 0 <= i < |Lines(text)| && PinLine(Lines(text)[i], name, version)
  }

  ghost predicate IsAPin(line: string) {
    exists name, version :: PinLine(line, name, version)
  }

  /** Every line is blank, a comment, an option, indented, or a pin; and no package is pinned to two versions. */
  ghost predicate WellFormed(text: string) {
    && (forall i :: 0 <= i < |Lines(text)| ==> PassedOver(Lines(text)[i]) || IsAPin(Lines(text)[i]))
    && (forall name, version, version' :: Requests(text, name, version) && Requests(text, name, version') ==>
          version == version')
  }

  /** What the build service asks of a lock text; None when parsing raises. */
  function Locked(text: string): Option<Packages> {
    var parsed := Parse(LockOf(text));
    if parsed.Parsed? then Some(parsed.packages) else None
  }

  lemma PinsAreRequested(text: string, name: string, version: string)
    ensures Pins(LockOf(text), name, version) <==> Requests(text, name, version)
  {
    hide Classify, PinLine, Lines;
    var lock := LockOf(text);
    if Pins(lock, name, version) {
      var i :| 0 <= i < |lock| && lock[i].Pinned? && lock[i].name == name && lock[i].version == version;
      ClassifySpec(Lines(text)[i], name, version);
    }
    if Requests(text, name, version) {
      var i :| 0 <= i < |Lines(text)| && PinLine(Lines(text)[i], name, version);
      ClassifySpec(Lines(text)[i], name, version);
      assert lock[i].Pinned?;
    }
  }

  lemma ConsistentIff(text: string)
    ensures Consistent(map[], LockOf(text)) <==> WellFormed(text)
  {
    hide Classify, Lines, Requests, PassedOver, PinLine;
    var lock := LockOf(text);
    forall i | 0 <= i < |Lines(text)|
      ensures lock[i].Malformed? <==> !(PassedOver(Lines(text)[i]) || IsAPin(Lines(text)[i]))
    {
      ClassifyRefuses(Lines(text)[i]);
    }
    forall name, version ensures Pins(lock, name, version) <==> Requests(text, name, version) {
      PinsAreRequested(text, name, version);
    }
    if WellFormed(text) {
      forall i, j | 0 <= i < |lock| && 0 <= j < |lock| && lock[i].Pinned? && lock[j].Pinned?
        && lock[i].name == lock[j].name
        ensures lock[i].version == lock[j].version
      {
        assert Pins(lock, lock[i].name, lock[i].version) && Pins(lock, lock[j].name, lock[j].version);
      }
    }
  }

  /** A lock text parses exactly when it is well formed, and then yields exactly the pins it requests. */
  lemma LockedSpec(text: string)
    ensures Locked(text).Some? <==> WellFormed(text)
    ensures Locked(text).Some? ==>
      forall name, version :: Maps(Locked(text).value, name, version) <==> Requests(text, name, version)
  {
    hide Requests, WellFormed, Pins, Consistent;
    ParseSpec(LockOf(text));
    ConsistentIff(text);
    forall name, version ensures Pins(LockOf(text), name, version) <==> Requests(text, name, version) {
      PinsAreRequested(text, name, version);
    }
  }

  /** The parsing loop of the source. */
  method ParseLockedPackages(text: string) returns (parsed: Parsed)
    ensures parsed == Parse(LockOf(text))
    ensures parsed.Parsed? <==> WellFormed(text)
    ensures parsed.Parsed? ==>
      forall name, version :: Maps(parsed.packages, name, version) <==> Requests(text, name, version)
  {
    hide Classify, Lines, WellFormed, Requests;
    LockedSpec(text);
    var packages: Packages := map[];
    var lines, lock := Lines(text), LockOf(text);
    for i := 0 to |lines|
      invariant ParseOnto(packages, lock[i..]) == Parse(lock)
    {
      var line := Classify(lines[i]);
      assert lock[i..][0] == line && lock[i..][1..] == lock[i + 1..];
      if line.Skipped? {
        continue;
      }
      if line.Malformed? {
        return NotAPin(line);
      }
      if line.name in packages && packages[line.name] != line.version {
        return Conflicting(line.name);
      }
      packages := packages[line.name := line.version];
    }
    return Parsed(packages);
  }
}
