/** The blacklist of dangerous shell commands (`SafetyGuard`, aifr/executor.py). */
module SafetyGuard {
  import opened Wrappers
  import opened Text


  /** One element of a pattern: a character, a character class, or `\s`. */
  datatype Atom = Char(c: char) | AnyOf(cs: string) | Range(lo: char, hi: char) | Space

  /** An atom once, or repeated at least `min` times (`+` is 1, `*` is 0). */
  datatype Piece = One(atom: Atom) | Repeat(atom: Atom, min: nat)

  predicate AtomMatches(a: Atom, c: char) {
    match a
    case Char(d) => c == d
    case AnyOf(cs) => c in cs
    case Range(lo, hi) => lo <= c <= hi
    case Space => IsSpace(c)
  }

  /** `s[i..e]` is made of characters the atom matches. */
  predicate Repeated(s: string, i: nat, e: nat, a: Atom)
    requires i <= e <= |s|
  {
    forall k | i <= k < e :: AtomMatches(a, s[k])
  }

  /** The pattern matches a prefix of `s[i..]`, for some choice of repetition counts. */
  predicate MatchAt(s: string, i: nat, p: seq<Piece>)
    decreases |p|
  {
    if p == [] then true
    else
      match p[0]
      case One(a) => i < |s| && AtomMatches(a, s[i]) && MatchAt(s, i + 1, p[1..])
      case Repeat(a, min) =>
        exists e | i + min <= e <= |s| :: Repeated(s, i, e, a) && MatchAt(s, e, p[1..])
  }

  /** `re.search(pattern, s)` finds a match. */
  predicate Search(s: string, p: seq<Piece>) {
    exists i | 0 <= i <= |s| :: MatchAt(s, i, p)
  }

  /** A pattern of literal characters. */
  function Chars(s: string): (r: seq<Piece>)
    ensures |r| == |s| && forall i | 0 <= i < |s| :: r[i] == One(Char(s[i]))
  {
    seq(|s|, i requires 0 <= i < |s| => One(Char(s[i])))
  }

  /** `rm\s+-[rRf]+\s+/`. */
  const RmRoot: seq<Piece> := Chars("rm") + RmTail
  /** `mkfs`. */
  const Mkfs: seq<Piece> := Chars("mkfs")
  /** `dd\s+if=`. */
  const DdIf: seq<Piece> := Chars("dd") + [Repeat(Space, 1)] + Chars("if=")
  /** `:\(\)\s*\{\s*:\s*\|\s*:\s*&\s*\}\s*;`. */
  const ForkBomb: seq<Piece> :=
    Chars(":()") + [Repeat(Space, 0), One(Char('{')), Repeat(Space, 0), One(Char(':')), Repeat(Space, 0),
    One(Char('|')), Repeat(Space, 0), One(Char(':')), Repeat(Space, 0), One(Char('&')), Repeat(Space, 0),
    One(Char('}')), Repeat(Space, 0), One(Char(';'))]
  /** `>\s*` followed by `/dev/sd[a-z]`. */
  const RawDevice: seq<Piece> := [One(Char('>')), Repeat(Space, 0)] + Chars("/dev/sd") + [One(Range('a', 'z'))]

  /** `BLACKLIST`: each pattern with its source text, in order. */
  const Blacklist: seq<(string, seq<Piece>)> := [
    (@"rm\s+-[rRf]+\s+/", RmRoot),
    ("mkfs", Mkfs),
    (@"dd\s+if=", DdIf),
    (@":\(\)\s*\{\s*:\s*\|\s*:\s*&\s*\}\s*;", ForkBomb),
    (@">\s*/dev/sd[a-z]", RawDevice)
  ]

  datatype SafetyCheckResult = SafetyCheckResult(isSafe: bool, warning: Option<string>)

  /** `Potentially dangerous command detected (pattern: `, written around the word callers look for. */
  const WarningHead := "Potentially " + "dangerous" + " command detected (pattern: "

  function Warning(source: string): string {
    WarningHead + source + ")"
  }

  /** The first blacklist entry from `k` on whose pattern occurs in the command. */
  function FirstMatch(command: string, k: nat): (r: Option<nat>)
    ensures r.Some? ==> (k <= r.value < |Blacklist| && Search(command, Blacklist[r.value].1)
      && forall j | k <= j < r.value :: !Search(command, Blacklist[j].1))
    ensures r.None? ==> forall j | k <= j < |Blacklist| :: !Search(command, Blacklist[j].1)
    decreases |Blacklist| - k
  {
    if k >= |Blacklist| then None
    else if Search(command, Blacklist[k].1) then Some(k)
    else FirstMatch(command, k + 1)
  }

  /**
   * What `check` returns: unsafe, with a warning naming the first pattern
   * found, exactly when some pattern occurs in the command; safe otherwise.
   */
  function Guard(command: string): (r: SafetyCheckResult)
    ensures r.isSafe <==> forall j | 0 <= j < |Blacklist| :: !Search(command, Blacklist[j].1)
    ensures r.isSafe ==> r.warning == None
    ensures !r.isSafe ==> exists k | 0 <= k < |Blacklist| ::
      && Search(command, Blacklist[k].1)
      && (forall j | 0 <= j < k :: !Search(command, Blacklist[j].1))
      && r.warning == Some(Warning(Blacklist[k].0))
  {
    match FirstMatch(command, 0)
    case None => SafetyCheckResult(true, None)
    case Some(k) => SafetyCheckResult(false, Some(Warning(Blacklist[k].0)))
  }

  /** `check`. */
  method Check(command: string) returns (r: SafetyCheckResult)
    ensures r == Guard(command)
  {
    for k := 0 to |Blacklist|
      invariant FirstMatch(command, 0) == FirstMatch(command, k)
    {
      if Search(command, Blacklist[k].1) {
        return SafetyCheckResult(false, Some(Warning(Blacklist[k].0)));
      }
    }
    return SafetyCheckResult(true, None);
  }

  // ---------------------------------------------------------------------------
  // Properties and the examples of the executor's tests

  /** A word of lower-case ASCII letters survives lower-casing wherever it sits. */
  lemma {:induction false} LowerKeepsWord(a: string, w: string, b: string)
    requires forall i | 0 <= i < |w| :: 'a' <= w[i] <= 'z'
    ensures Contains(Lower(a + w + b), w)
  {
    var low := Lower(a + w + b);
    forall j | 0 <= j < |w| ensures low[|a| + j] == w[j] {
      assert (a + w + b)[|a| + j] == w[j];
    }
    assert low[|a|..|a| + |w|] == w;
    assert OccursAt(low, w, |a|);
  }

  /** Every warning says, in any case, that the command is dangerous. */
  lemma {:induction false} WarningDangerous(source: string)
    ensures Contains(Lower(Warning(source)), "dangerous")
  {
    var tail := " command detected (pattern: " + source + ")";
    assert Warning(source) == "Potentially " + "dangerous" + tail;
    LowerKeepsWord("Potentially ", "dangerous", tail);
  }

  /** A refusal always carries a warning, which says that the command is dangerous. */
  lemma {:induction false} WarningSaysDangerous(command: string)
    requires !Guard(command).isSafe
    ensures Guard(command).warning.Some? && Contains(Lower(Guard(command).warning.value), "dangerous")
  {
    var k := FirstMatch(command, 0).value;
    WarningDangerous(Blacklist[k].0);
  }

  /** A literal pattern matches where its text occurs. */
  lemma {:induction false} CharsMatch(s: string, i: nat, w: string, rest: seq<Piece>)
    requires OccursAt(s, w, i) && MatchAt(s, i + |w|, rest)
    ensures MatchAt(s, i, Chars(w) + rest)
    decreases |w|
  {
    if w == [] {
      assert Chars(w) + rest == rest;
    } else {
      var p := Chars(w) + rest;
      assert p[0] == One(Char(w[0]));
      assert p[1..] == Chars(w[1..]) + rest;
      assert s[i] == s[i..i + |w|][0];
      assert s[i + 1..i + 1 + |w[1..]|] == s[i..i + |w|][1..];
      CharsMatch(s, i + 1, w[1..], rest);
    }
  }

  /** Any command that contains `mkfs` is refused. */
  lemma {:induction false} MkfsRefused(command: string)
    requires Contains(command, "mkfs")
    ensures !Guard(command).isSafe
  {
    var i :| 0 <= i <= |command| - 4 && OccursAt(command, "mkfs", i);
    CharsMatch(command, i, "mkfs", []);
    assert Chars("mkfs") + [] == Mkfs;
    assert Blacklist[1].1 == Mkfs;
    assert MatchAt(command, i, Blacklist[1].1);
  }

  /** The `mkfs` example of the executor's tests. */
  lemma {:induction false} MkfsExample(command: string)
    requires command == "sudo mkfs.ext4 /dev/sda1"
    ensures !Guard(command).isSafe
  {
    assert command[5..9] == "mkfs";
    assert OccursAt(command, "mkfs", 5);
    MkfsRefused(command);
  }

  lemma {:induction false} MatchOne(s: string, i: nat, a: Atom, rest: seq<Piece>)
    requires i < |s| && AtomMatches(a, s[i]) && MatchAt(s, i + 1, rest)
    ensures MatchAt(s, i, [One(a)] + rest)
  {
    assert ([One(a)] + rest)[1..] == rest;
  }

  lemma {:induction false} MatchRepeat(s: string, i: nat, e: nat, a: Atom, min: nat, rest: seq<Piece>)
    requires i + min <= e <= |s| && Repeated(s, i, e, a) && MatchAt(s, e, rest)
    ensures MatchAt(s, i, [Repeat(a, min)] + rest)
  {
    assert ([Repeat(a, min)] + rest)[1..] == rest;
  }

  /** The `rm -rf /` example of the executor's tests. */
  lemma {:induction false} RmRootExample(command: string)
    requires command == "rm -rf /"
    ensures !Guard(command).isSafe
  {
    RmRootTail(command);
    assert command[..2] == "rm";
    CharsMatch(command, 0, "rm", RmTail);
    assert MatchAt(command, 0, Blacklist[0].1);
  }

  /** What follows `rm` in the first pattern. */
  const RmTail: seq<Piece> := [Repeat(Space, 1), One(Char('-')), Repeat(AnyOf("rRf"), 1), Repeat(Space, 1), One(Char('/'))]

  lemma {:induction false} RmRootTail(command: string)
    requires command == "rm -rf /"
    ensures MatchAt(command, 2, RmTail)
  {
    var p5: seq<Piece> := [One(Char('/'))];
    var p4 := [Repeat(Space, 1)] + p5;
    var p3 := [Repeat(AnyOf("rRf"), 1)] + p4;
    var p2 := [One(Char('-'))] + p3;
    MatchOne(command, 7, Char('/'), []);
    assert [One(Char('/'))] + [] == p5;
    MatchRepeat(command, 6, 7, Space, 1, p5);
    assert Repeated(command, 4, 6, AnyOf("rRf")) by {
      assert command[4] == 'r' && command[5] == 'f';
    }
    MatchRepeat(command, 4, 6, AnyOf("rRf"), 1, p4);
    MatchOne(command, 3, Char('-'), p3);
    MatchRepeat(command, 2, 3, Space, 1, p2);
    assert [Repeat(Space, 1)] + p2 == RmTail;
  }

  /** A pattern whose first character does not occur in the command never matches. */
  lemma {:induction false} FirstCharAbsent(s: string, p: seq<Piece>, c: char)
    requires p != [] && p[0] == One(Char(c)) && forall i | 0 <= i < |s| :: s[i] != c
    ensures !Search(s, p)
  {
  }

  /** The safe example of the executor's tests: `ls -la` passes, with no warning. */
  lemma {:induction false} SafeExample(command: string)
    requires command == "ls -la"
    ensures Guard(command).isSafe && Guard(command).warning == None
  {
    LsLetters(command);
    FirstPieces();
    forall j | 0 <= j < |Blacklist| ensures !Search(command, Blacklist[j].1) {
      if j == 0 {
        FirstCharAbsent(command, RmRoot, 'r');
      } else if j == 1 {
        FirstCharAbsent(command, Mkfs, 'm');
      } else if j == 2 {
        FirstCharAbsent(command, DdIf, 'd');
      } else if j == 3 {
        FirstCharAbsent(command, ForkBomb, ':');
      } else {
        FirstCharAbsent(command, RawDevice, '>');
      }
    }
  }

  lemma {:induction false} LsLetters(command: string)
    requires command == "ls -la"
    ensures forall i | 0 <= i < |command| :: command[i] in "ls -a"
  {
  }

  /** The character each pattern of the blacklist starts with. */
  lemma {:induction false} FirstPieces()
    ensures RmRoot[0] == One(Char('r')) && Mkfs[0] == One(Char('m')) && DdIf[0] == One(Char('d'))
    ensures ForkBomb[0] == One(Char(':')) && RawDevice[0] == One(Char('>'))
  {
  }
}
