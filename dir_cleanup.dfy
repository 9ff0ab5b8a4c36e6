/** Pruning of micromagnetic checkpoint files: a fixed file-name pattern, the
    keep/delete partition by the save spacing, the interactive confirmation and
    the best-effort deletion of one `drive-<N>` directory. The file system is a
    `Directory` object holding a set of names; the listing and the user's
    replies are plain inputs. */
module DirCleanup {
  import opened Wrappers
  import opened Decimal

  // ---------------------------------------------------------------------------
  // The checkpoint file-name pattern

  const Prefix: string := "dmi_paper-Oxs_TimeDriver-Magnetization-"
  const Suffix: string := ".omf"
  /** Prefix, 9-digit sequence, '-', 7-digit sub-sequence, suffix. */
  const NameLength: nat := |Prefix| + 9 + 1 + 7 + |Suffix|

  /** The file name the simulator writes for the given digit groups. */
  function CheckpointName(seqDigits: string, subDigits: string): string {
    Prefix + seqDigits + "-" + subDigits + Suffix
  }

  /** The part of a name the pattern has to cover: Python's `$` also matches
      just before a single newline that ends the string. */
  function Anchored(name: string): (core: string)
    ensures core == name || (core + "\n" == name && |core| == NameLength)
  {
    if |name| == NameLength + 1 && name[NameLength] == '\n' then name[..NameLength] else name
  }

  /** `pattern.match(name)` and then `int(match.group(1))`: the sequence
      number of a checkpoint file, None for any other name. */
  function MatchSeq(name: string): (r: Option<nat>)
    ensures r.Some? ==> |name| >= NameLength
  {
    var core := Anchored(name);
    var p := |Prefix|;
    if |core| == NameLength && core[..p] == Prefix && AllDigits(core[p..p + 9])
       && core[p + 9] == '-' && AllDigits(core[p + 10..p + 17]) && core[p + 17..] == Suffix
    then Some(Value(core[p..p + 9]))
    else None
  }

  /** Only checkpoint names match: a matched name is the prefix, nine digits,
      '-', seven digits and the suffix, perhaps followed by one newline, and
      the number is read from the nine digits. */
  lemma MatchSound(name: string)
    requires MatchSeq(name).Some?
    ensures |name| >= NameLength
    ensures var d9 := name[|Prefix|..|Prefix| + 9];
            var d7 := name[|Prefix| + 10..|Prefix| + 17];
            && |d9| == 9 && AllDigits(d9) && |d7| == 7 && AllDigits(d7)
            && (name == CheckpointName(d9, d7) || name == CheckpointName(d9, d7) + "\n")
            && MatchSeq(name) == Some(Value(d9))
  {
    var core := Anchored(name);
    var p := |Prefix|;
    var d9, d7 := name[p..p + 9], name[p + 10..p + 17];
    assert core[p..p + 9] == d9 && core[p + 10..p + 17] == d7;
    assert core == core[..p] + core[p..p + 9] + [core[p + 9]] + core[p + 10..p + 17] + core[p + 17..];
    assert core == CheckpointName(d9, d7);
  }

  /** Every checkpoint name matches, with its nine digits as the sequence number. */
  lemma MatchComplete(d9: string, d7: string, newline: bool)
    requires |d9| == 9 && AllDigits(d9) && |d7| == 7 && AllDigits(d7)
    ensures MatchSeq(CheckpointName(d9, d7) + (if newline then "\n" else "")) == Some(Value(d9))
  {
    var core := CheckpointName(d9, d7);
    var name := core + (if newline then "\n" else "");
    var p := |Prefix|;
    assert |core| == NameLength;
    assert Anchored(name) == core;
    assert core[..p] == Prefix;
    assert core[p..p + 9] == d9;
    assert core[p + 9] == '-';
    assert core[p + 10..p + 17] == d7;
    assert core[p + 17..] == Suffix;
  }

  /** The project prefix named in the function's documentation is not the one
      the pattern accepts. */
  lemma DocumentedPrefixDoesNotMatch()
    ensures MatchSeq("dmi_with_anisotropy-Oxs_TimeDriver-Magnetization-000000499-0000000.omf") == None
  {
  }

  // ---------------------------------------------------------------------------
  // The retention rule and the keep/delete partition

  /** Raised by `(seq + 1) % save_spacing` when the spacing is 0 (Python's
      ZeroDivisionError); the model records the file being scanned. */
  datatype CleanupError = ZeroSpacing(name: string)

  /** The retention rule on a sequence number: Some(true) keeps it, Some(false)
      deletes it, None when the modulo by a zero spacing raises. The `or`
      short-circuits, so sequence 0 never reaches the modulo. */
  function Retain(q: nat, spacing: int): (r: Option<bool>)
    ensures r.None? <==> q != 0 && spacing == 0
  {
    if q == 0 then Some(true)
    else if spacing == 0 then None
    else Some((q + 1) % spacing == 0)
  }

  /** With spacing 500, the sequences 0..999 keep exactly 0, 499 and 999. */
  lemma RetainEvery500(q: nat)
    requires q < 1000
    ensures Retain(q, 500) == Some(q == 0 || q == 499 || q == 999)
  {
    if q != 0 {
      var k := (q + 1) / 500;
      assert q + 1 == 500 * k + (q + 1) % 500;
      if (q + 1) % 500 == 0 {
        assert k == 1 || k == 2;
      } else {
        assert q != 499 && q != 999;
      }
    }
  }

  datatype Fate = Unmatched | Keep | Delete

  /** What the scan does with one directory entry. */
  function Classify(name: string, spacing: int): (r: Result<Fate, CleanupError>)
    ensures r.Ok? && r.value != Unmatched <==> MatchSeq(name).Some? && Retain(MatchSeq(name).value, spacing).Some?
    ensures r.Ok? && r.value == Keep <==> MatchSeq(name).Some? && Retain(MatchSeq(name).value, spacing) == Some(true)
    ensures r.Err? <==> MatchSeq(name).Some? && MatchSeq(name).value != 0 && spacing == 0
    ensures r.Err? ==> r.error == ZeroSpacing(name)
    ensures MatchSeq(name).None? ==> r == Ok(Unmatched)
  {
    match MatchSeq(name)
    case None => Ok(Unmatched)
    case Some(q) =>
      match Retain(q, spacing)
      case None => Err(ZeroSpacing(name))
      case Some(keep) => Ok(if keep then Keep else Delete)
  }

  datatype Split = Split(keep: seq<string>, delete: seq<string>)

  /** The keep and delete lists after scanning `listing` in order; the first
      error stops the scan. */
  function SplitOf(listing: seq<string>, spacing: int): (r: Result<Split, CleanupError>)
    ensures r.Ok? ==> |r.value.keep| + |r.value.delete| <= |listing|
    ensures r.Err? ==> r.error.name in listing
    decreases |listing|
  {
    if listing == [] then Ok(Split([], []))
    else
      var name := listing[|listing| - 1];
      match SplitOf(listing[..|listing| - 1], spacing)
      case Err(e) => Err(e)
      case Ok(s) =>
        match Classify(name, spacing)
        case Err(e) => Err(e)
        case Ok(Unmatched) => Ok(s)
        case Ok(Keep) => Ok(Split(s.keep + [name], s.delete))
        case Ok(Delete) => Ok(Split(s.keep, s.delete + [name]))
  }

  /** The names of `listing`, in order, whose classification is one of `fates`. */
  function Pick(listing: seq<string>, spacing: int, fates: set<Fate>): (r: seq<string>)
    ensures |r| <= |listing|
    ensures forall i :: 0 <= i < |r| ==> r[i] in listing && Classify(r[i], spacing).Ok? && Classify(r[i], spacing).value in fates
    ensures forall i :: 0 <= i < |listing| && Classify(listing[i], spacing).Ok? && Classify(listing[i], spacing).value in fates ==> listing[i] in r
  {
    if listing == [] then []
    else
      var c := Classify(listing[0], spacing);
      (if c.Ok? && c.value in fates then [listing[0]] else []) + Pick(listing[1..], spacing, fates)
  }

  lemma {:induction false} PickAppend(a: seq<string>, b: seq<string>, spacing: int, fates: set<Fate>)
    ensures Pick(a + b, spacing, fates) == Pick(a, spacing, fates) + Pick(b, spacing, fates)
  {
    if a != [] {
      assert (a + b)[1..] == a[1..] + b;
      PickAppend(a[1..], b, spacing, fates);
    } else {
      assert a + b == b;
    }
  }

  /** Picking by two disjoint sets of fates picks, between them, as many names
      as picking by their union. */
  lemma {:induction false} PickCount(listing: seq<string>, spacing: int, f: set<Fate>, g: set<Fate>)
    requires f !! g
    ensures |Pick(listing, spacing, f)| + |Pick(listing, spacing, g)| == |Pick(listing, spacing, f + g)|
  {
    if listing != [] {
      PickCount(listing[1..], spacing, f, g);
    }
  }

  /** The scan fails exactly when some entry's classification raises, and then
      with the first such error. */
  lemma {:induction false} SplitOfFails(listing: seq<string>, spacing: int)
    ensures SplitOf(listing, spacing).Ok? <==> forall i :: 0 <= i < |listing| ==> Classify(listing[i], spacing).Ok?
  {
    if listing != [] {
      var init, name := listing[..|listing| - 1], listing[|listing| - 1];
      SplitOfFails(init, spacing);
      assert forall i :: 0 <= i < |init| ==> init[i] == listing[i];
      assert Classify(name, spacing).Ok? <==> Classify(listing[|listing| - 1], spacing).Ok?;
    }
  }

  /** Once a prefix of the listing has raised, the whole scan raises the same error. */
  lemma {:induction false} SplitOfErrorSticks(listing: seq<string>, i: nat, spacing: int)
    requires i <= |listing| && SplitOf(listing[..i], spacing).Err?
    ensures SplitOf(listing, spacing) == SplitOf(listing[..i], spacing)
  {
    if i < |listing| {
      var init := listing[..|listing| - 1];
      assert init[..i] == listing[..i];
      SplitOfErrorSticks(init, i, spacing);
    } else {
      assert listing[..i] == listing;
    }
  }

  /** A successful scan puts in the keep list exactly the kept matches and in
      the delete list exactly the deleted ones, each in listing order. */
  lemma {:induction false} SplitOfLists(listing: seq<string>, spacing: int)
    requires SplitOf(listing, spacing).Ok?
    ensures SplitOf(listing, spacing).value.keep == Pick(listing, spacing, {Keep})
    ensures SplitOf(listing, spacing).value.delete == Pick(listing, spacing, {Delete})
  {
    if listing != [] {
      var init, name := listing[..|listing| - 1], listing[|listing| - 1];
      assert listing == init + [name];
      SplitOfLists(init, spacing);
      PickAppend(init, [name], spacing, {Keep});
      PickAppend(init, [name], spacing, {Delete});
      PickOne(name, spacing, {Keep});
      PickOne(name, spacing, {Delete});
    }
  }

  lemma PickOne(name: string, spacing: int, fates: set<Fate>)
    ensures var c := Classify(name, spacing);
            Pick([name], spacing, fates) == if c.Ok? && c.value in fates then [name] else []
  {
    assert [name][1..] == [];
  }

  /** The two lists are disjoint, between them they hold exactly the matching
      names of the listing, and their lengths add up to the number of matching
      entries (the printed `total_files`). */
  lemma SplitIsPartition(listing: seq<string>, spacing: int)
    requires SplitOf(listing, spacing).Ok?
    ensures var s := SplitOf(listing, spacing).value;
            && (forall n :: n in s.keep ==> n !in s.delete)
            && (forall n :: n in listing && MatchSeq(n).Some? <==> n in s.keep || n in s.delete)
            && |s.keep| + |s.delete| == |Pick(listing, spacing, {Keep, Delete})|
  {
    SplitOfLists(listing, spacing);
    SplitOfFails(listing, spacing);
    PickCount(listing, spacing, {Keep}, {Delete});
    assert {Keep} + {Delete} == {Keep, Delete};
    forall n | n in listing
      ensures Classify(n, spacing).Ok?
    {
      var i :| 0 <= i < |listing| && listing[i] == n;
    }
  }

  /** The scan loop of `process_drive_dir`: append each matching name to the
      keep or the delete list. */
  method Partition(listing: seq<string>, spacing: int) returns (r: Result<Split, CleanupError>)
    ensures r == SplitOf(listing, spacing)
  {
    var keep: seq<string> := [];
    var delete: seq<string> := [];
    for i := 0 to |listing|
      invariant SplitOf(listing[..i], spacing) == Ok(Split(keep, delete))
    {
      var name := listing[i];
      assert listing[..i + 1][..i] == listing[..i];
      var m := MatchSeq(name);
      if m.Some? {
        var q := m.value;
        if q == 0 {
          keep := keep + [name];
        } else if spacing == 0 {
          SplitOfErrorSticks(listing, i + 1, spacing);
          return Err(ZeroSpacing(name));
        } else if (q + 1) % spacing == 0 {
          keep := keep + [name];
        } else {
          delete := delete + [name];
        }
      }
    }
    assert listing[..|listing|] == listing;
    r := Ok(Split(keep, delete));
  }

  // ---------------------------------------------------------------------------
  // Reading a reply

  /** Python's `str.isspace` on one character. */
  predicate IsSpace(c: char) {
    || c == ' ' || '\t' <= c <= '\r' || '\U{1c}' <= c <= '\U{1f}'
    || c == '\U{85}' || c == '\U{a0}' || c == '\U{1680}' || '\U{2000}' <= c <= '\U{200a}'
    || c == '\U{2028}' || c == '\U{2029}' || c == '\U{202f}' || c == '\U{205f}' || c == '\U{3000}'
  }

  /** `str.lstrip()`. */
  function StripLeft(s: string): (r: string)
    ensures |r| <= |s|
  {
    if s != [] && IsSpace(s[0]) then StripLeft(s[1..]) else s
  }

  /** `str.rstrip()`. */
  function StripRight(s: string): (r: string)
    ensures |r| <= |s|
  {
    if s != [] && IsSpace(s[|s| - 1]) then StripRight(s[..|s| - 1]) else s
  }

  /** Left stripping drops exactly the leading whitespace. */
  lemma {:induction false} StripLeftDropsLeadingSpace(s: string)
    ensures var r := StripLeft(s);
            && r == s[|s| - |r|..]
            && (r == [] || !IsSpace(r[0]))
            && forall k :: 0 <= k < |s| - |r| ==> IsSpace(s[k])
  {
    if s != [] && IsSpace(s[0]) {
      StripLeftDropsLeadingSpace(s[1..]);
    }
  }

  /** Right stripping drops exactly the trailing whitespace. */
  lemma {:induction false} StripRightDropsTrailingSpace(s: string)
    ensures var r := StripRight(s);
            && r == s[..|r|]
            && (r == [] || !IsSpace(r[|r| - 1]))
            && forall k :: |r| <= k < |s| ==> IsSpace(s[k])
  {
    if s != [] && IsSpace(s[|s| - 1]) {
      StripRightDropsTrailingSpace(s[..|s| - 1]);
    }
  }

  /** Python's `str.lower` on one ASCII character. */
  function LowerChar(c: char): (r: char)
    ensures 'A' <= c <= 'Z' ==> 'a' <= r <= 'z' && r as int - 'a' as int == c as int - 'A' as int
    ensures !('A' <= c <= 'Z') ==> r == c
  {
    if 'A' <= c <= 'Z' then (c as int - 'A' as int + 'a' as int) as char else c
  }

  /** `str.lower` on ASCII letters. */
  function Lower(s: string): (r: string)
    ensures |r| == |s|
  {
    if s == [] then [] else [LowerChar(s[0])] + Lower(s[1..])
  }

  /** Lower-casing maps every character on its own. */
  lemma {:induction false} LowerEachChar(s: string)
    ensures forall i :: 0 <= i < |s| ==> Lower(s)[i] == LowerChar(s[i])
  {
    if s != [] {
      LowerEachChar(s[1..]);
    }
  }

  /** `input(...).strip().lower()`. */
  function Normalize(reply: string): (r: string)
    ensures |r| <= |reply|
  {
    Lower(StripRight(StripLeft(reply)))
  }

  /** The normalised reply is the lower-cased slice of the reply between its
      leading and its trailing whitespace. */
  lemma NormalizeTrims(reply: string)
    ensures exists a, b :: Trimmed(reply, a, b) && Normalize(reply) == Lower(reply[a..b])
  {
    TrimBounds(reply);
  }

  /** `reply[a..b]` is `reply` without its leading and trailing whitespace. */
  predicate Trimmed(reply: string, a: int, b: int) {
    && 0 <= a <= b <= |reply|
    && (forall k :: 0 <= k < a ==> IsSpace(reply[k]))
    && (forall k :: b <= k < |reply| ==> IsSpace(reply[k]))
    && (a < b ==> !IsSpace(reply[a]) && !IsSpace(reply[b - 1]))
  }

  /** Stripping both ends leaves the slice between the first and the last
      non-space character. */
  lemma TrimBounds(reply: string)
    ensures exists a, b :: Trimmed(reply, a, b) && StripRight(StripLeft(reply)) == reply[a..b]
  {
    var l := StripLeft(reply);
    var t := StripRight(l);
    StripLeftDropsLeadingSpace(reply);
    StripRightDropsTrailingSpace(l);
    var a := |reply| - |l|;
    var b := a + |t|;
    assert t == reply[a..b];
    assert Trimmed(reply, a, b);
  }

  /** A reply that `get_valid_input` accepts. */
  predicate Accepts(options: seq<string>, reply: string) {
    Normalize(reply) in options
  }

  /** The first reply from position `from` on that normalises to one of
      `options`, with the number of replies read by then (counted from the
      start); None when the replies run out first (where `input` raises
      EOFError). */
  function FirstValidFrom(replies: seq<string>, options: seq<string>, from: nat): (r: Option<(string, nat)>)
    requires from <= |replies|
    ensures r.Some? ==>
      && from < r.value.1 <= |replies| && r.value.0 in options
      && r.value.0 == Normalize(replies[r.value.1 - 1])
      && forall j :: from <= j < r.value.1 - 1 ==> !Accepts(options, replies[j])
    ensures r.None? ==> forall j :: from <= j < |replies| ==> !Accepts(options, replies[j])
    decreases |replies| - from
  {
    if from == |replies| then None
    else if Accepts(options, replies[from]) then Some((Normalize(replies[from]), from + 1))
    else FirstValidFrom(replies, options, from + 1)
  }

  /** The first accepted reply and the number of replies read up to and including it. */
  function FirstValid(replies: seq<string>, options: seq<string>): (r: Option<(string, nat)>)
  {
    FirstValidFrom(replies, options, 0)
  }

  /** `get_valid_input`: re-prompt until a reply is one of `options`. */
  method GetValidInput(replies: seq<string>, options: seq<string>) returns (answer: Option<string>, used: nat)
    ensures used <= |replies|
    ensures answer.Some? ==> answer.value in options
    ensures answer.None? ==> used == |replies|
    ensures FirstValid(replies, options) == if answer.Some? then Some((answer.value, used)) else None
  {
    used := 0;
    while used < |replies|
      invariant used <= |replies|
      invariant FirstValid(replies, options) == FirstValidFrom(replies, options, used)
    {
      var response := Normalize(replies[used]);
      used := used + 1;
      if response in options {
        return Some(response), used;
      }
    }
    answer := None;
  }

  const YesNo: seq<string> := ["yes", "no"]

  /** The two prompts of interactive mode ("print the list?", then "delete?"):
      whether deletion was confirmed and how many replies were read; None when
      the replies run out. */
  function Confirmation(replies: seq<string>): (r: Option<(bool, nat)>)
    ensures r.Some? ==> 2 <= r.value.1 <= |replies|
    ensures r.Some? ==> Accepts(YesNo, replies[r.value.1 - 1])
    ensures r.Some? ==> (r.value.0 <==> Normalize(replies[r.value.1 - 1]) == "yes")
  {
    match FirstValid(replies, YesNo)
    case None => None
    case Some((_, k)) =>
      match FirstValid(replies[k..], YesNo)
      case None => None
      case Some((confirm, m)) => Some((confirm == "yes", k + m))
  }

  /** Once the first question is answered after `k` replies, the confirmation
      is the answer to the second question read from the rest. */
  lemma ConfirmationAfterFirst(replies: seq<string>, k: nat)
    requires FirstValid(replies, YesNo).Some? && FirstValid(replies, YesNo).value.1 == k
    ensures k <= |replies|
    ensures Confirmation(replies) == match FirstValid(replies[k..], YesNo)
                                     case None => None
                                     case Some((confirm, m)) => Some((confirm == "yes", k + m))
  {
    var first := FirstValid(replies, YesNo);
    assert first == Some((first.value.0, k));
  }

  /** The reply that decides is the second accepted one: exactly one reply
      before it (the answer to "print the list?") was accepted. */
  lemma {:induction false} ConfirmationSecondAnswer(replies: seq<string>)
    ensures var r := Confirmation(replies);
            r.Some? ==> exists f :: && 0 <= f < r.value.1 - 1 && Accepts(YesNo, replies[f])
                                    && forall j :: 0 <= j < r.value.1 - 1 && j != f ==> !Accepts(YesNo, replies[j])
  {
    var first := FirstValid(replies, YesNo);
    if Confirmation(replies).Some? {
      var k := first.value.1;
      var rest := replies[k..];
      var m := FirstValid(rest, YesNo).value.1;
      assert Confirmation(replies).value.1 == k + m;
      assert forall j :: 0 <= j < k - 1 ==> !Accepts(YesNo, replies[j]);
      forall j | k <= j < k + m - 1
        ensures !Accepts(YesNo, replies[j])
      {
        assert rest[j - k] == replies[j];
      }
      assert Accepts(YesNo, replies[k - 1]);
    }
  }

  /** Without a confirmation, fewer than two replies were valid answers. */
  lemma ConfirmationNone(replies: seq<string>)
    requires Confirmation(replies).None?
    ensures forall i, j :: 0 <= i < j < |replies| ==> !(Accepts(YesNo, replies[i]) && Accepts(YesNo, replies[j]))
  {
    var first := FirstValid(replies, YesNo);
    if first.Some? {
      var k := first.value.1;
      var rest := replies[k..];
      assert FirstValid(rest, YesNo).None?;
      forall j | k <= j < |replies|
        ensures !Accepts(YesNo, replies[j])
      {
        assert rest[j - k] == replies[j];
      }
    }
  }

  // ---------------------------------------------------------------------------
  // Deleting

  /** The directory being pruned: the names it holds, the names whose removal
      fails (permissions, races), and a log of every removal attempted. */
  class Directory {
    var files: set<string>
    const stuck: set<string>
    ghost var attempts: seq<string>

    constructor (files: set<string>, stuck: set<string>)
      ensures this.files == files && this.stuck == stuck && attempts == []
    {
      this.files := files;
      this.stuck := stuck;
      attempts := [];
    }

    /** `os.remove`: fails for a name that is absent or stuck. */
    method Remove(name: string) returns (ok: bool)
      modifies this
      ensures ok <==> name in old(files) && name !in stuck
      ensures files == if ok then old(files) - {name} else old(files)
      ensures attempts == old(attempts) + [name]
    {
      ok := name in files && name !in stuck;
      if ok {
        files := files - {name};
      }
      attempts := attempts + [name];
    }
  }

  /** Removing `names` one after the other, carrying on after a failure: the
      files left and the names whose removal failed, in order. */
  function Sweep(files: set<string>, stuck: set<string>, names: seq<string>): (r: (set<string>, seq<string>))
    ensures |r.1| <= |names|
    ensures forall n :: n in r.1 ==> n in names
    decreases |names|
  {
    if names == [] then (files, [])
    else
      var (left, failed) := Sweep(files, stuck, names[..|names| - 1]);
      var n := names[|names| - 1];
      if n in left && n !in stuck then (left - {n}, failed) else (left, failed + [n])
  }

  /** A sweep removes every listed name that is not stuck, whatever failed
      before it, and nothing else. */
  lemma {:induction false} SweepRemoves(files: set<string>, stuck: set<string>, names: seq<string>)
    ensures Sweep(files, stuck, names).0 == files - (set n | n in names && n !in stuck)
  {
    if names != [] {
      var init := names[..|names| - 1];
      SweepRemoves(files, stuck, init);
      assert forall n :: n in names <==> n in init || n == names[|names| - 1];
    }
  }

  predicate Distinct(names: seq<string>) {
    forall i, j :: 0 <= i < j < |names| ==> names[i] != names[j]
  }

  /** With no name listed twice, a removal fails exactly for the names that
      are stuck or were not there. */
  lemma {:induction false} SweepFailures(files: set<string>, stuck: set<string>, names: seq<string>)
    requires Distinct(names)
    ensures forall n :: n in Sweep(files, stuck, names).1 <==> n in names && (n in stuck || n !in files)
  {
    if names != [] {
      var init, last := names[..|names| - 1], names[|names| - 1];
      SweepFailures(files, stuck, init);
      SweepRemoves(files, stuck, init);
      assert last !in init;
      assert forall n :: n in names <==> n in init || n == last;
    }
  }

  datatype Outcome =
    | Raised(error: CleanupError)   // the scan raised before any prompt
    | NothingToDelete               // nothing marked, no prompt shown
    | InputExhausted                // `input` raised EOFError at a prompt
    | Cancelled                     // the user did not confirm
    | Deleted(failed: seq<string>)  // deletion ran; the names whose removal failed

  /** The two prompts of interactive mode: whether to print the marked names
      (only the output depends on it), then whether to delete them. */
  method AskToDelete(replies: seq<string>) returns (confirmed: Option<bool>, used: nat)
    ensures used <= |replies|
    ensures Confirmation(replies) == if confirmed.Some? then Some((confirmed.value, used)) else None
    ensures confirmed.None? ==> used == |replies|
  {
    var show, k := GetValidInput(replies, YesNo);
    if show.None? {
      return None, k;
    }
    var confirm, m := GetValidInput(replies[k..], YesNo);
    ConfirmationAfterFirst(replies, k);
    used := k + m;
    if confirm.None? {
      return None, used;
    }
    confirmed := Some(confirm.value == "yes");
  }

  /** The deletion loop: try every marked name once, in order, reporting and
      skipping the ones whose removal fails. */
  method DeleteAll(dir: Directory, marked: seq<string>) returns (failed: seq<string>)
    modifies dir
    ensures dir.attempts == old(dir.attempts) + marked
    ensures (dir.files, failed) == Sweep(old(dir.files), dir.stuck, marked)
  {
    failed := [];
    for i := 0 to |marked|
      invariant dir.attempts == old(dir.attempts) + marked[..i]
      invariant (dir.files, failed) == Sweep(old(dir.files), dir.stuck, marked[..i])
    {
      var f := marked[i];
      assert marked[..i + 1][..i] == marked[..i];
      var ok := dir.Remove(f);
      if !ok {
        failed := failed + [f];
      }
    }
    assert marked[..|marked|] == marked;
  }

  /** `process_drive_dir`: scan the listing, stop early when nothing is marked,
      ask for confirmation unless in batch mode, then try to remove every
      marked file. Returns what happened and how many replies were read. */
  method ProcessDriveDir(dir: Directory, listing: seq<string>, spacing: int, batch: bool, replies: seq<string>)
    returns (outcome: Outcome, used: nat)
    modifies dir
    ensures SplitOf(listing, spacing).Err? ==> outcome == Raised(SplitOf(listing, spacing).error)
    ensures SplitOf(listing, spacing).Ok? && SplitOf(listing, spacing).value.delete == [] ==> outcome == NothingToDelete
    ensures outcome.Raised? || outcome.NothingToDelete? || batch ==> used == 0
    ensures SplitOf(listing, spacing).Ok? && SplitOf(listing, spacing).value.delete != [] && !batch ==>
      match Confirmation(replies)
      case None => outcome == InputExhausted && used == |replies|
      case Some((yes, k)) => used == k && (if yes then outcome.Deleted? else outcome == Cancelled)
    ensures outcome.Deleted? <==>
      SplitOf(listing, spacing).Ok? && SplitOf(listing, spacing).value.delete != [] &&
      (batch || (Confirmation(replies).Some? && Confirmation(replies).value.0))
    ensures outcome.Deleted? ==>
      var marked := SplitOf(listing, spacing).value.delete;
      && dir.attempts == old(dir.attempts) + marked
      && (dir.files, outcome.failed) == Sweep(old(dir.files), dir.stuck, marked)
    ensures !outcome.Deleted? ==> dir.files == old(dir.files) && dir.attempts == old(dir.attempts)
    ensures SplitOf(listing, spacing).Ok? ==>
      forall n :: n in SplitOf(listing, spacing).value.keep && n in old(dir.files) ==> n in dir.files
  {
    used := 0;
    var scan := Partition(listing, spacing);
    if scan.Err? {
      return Raised(scan.error), 0;
    }
    var keep, delete := scan.value.keep, scan.value.delete;
    if delete == [] {
      return NothingToDelete, 0;
    }
    if !batch {
      var confirmed;
      confirmed, used := AskToDelete(replies);
      if confirmed.None? {
        return InputExhausted, used;
      } else if !confirmed.value {
        return Cancelled, used;
      }
    }
    var failed := DeleteAll(dir, delete);
    SplitIsPartition(listing, spacing);
    SweepRemoves(old(dir.files), dir.stuck, delete);
    outcome := Deleted(failed);
  }

  // ---------------------------------------------------------------------------
  // Ordering the drive directories

  /** `os.path.basename`: the part after the last '/'. */
  function Basename(path: string): (b: string)
    ensures '/' !in b
    ensures |b| <= |path| && b == path[|path| - |b|..]
    ensures |b| < |path| ==> path[|path| - |b| - 1] == '/'
  {
    if path == [] || path[|path| - 1] == '/' then []
    else Basename(path[..|path| - 1]) + [path[|path| - 1]]
  }

  /** The longest run of digits that starts `s` (what a greedy `\d+` takes). */
  function LeadingDigits(s: string): (d: string)
    ensures AllDigits(d) && |d| <= |s| && d == s[..|d|]
    ensures |d| < |s| ==> !IsDigit(s[|d|])
  {
    if s != [] && IsDigit(s[0]) then [s[0]] + LeadingDigits(s[1..]) else []
  }

  const DrivePrefix: string := "drive-"

  /** `re.match(r'^drive-(\d+)', base)` read as a number, 0 without a match. */
  function DriveNumber(base: string): (n: nat)
    ensures n != 0 ==> |base| > 6 && base[..6] == DrivePrefix && IsDigit(base[6])
  {
    if |base| > 6 && base[..6] == DrivePrefix && IsDigit(base[6]) then Value(LeadingDigits(base[6..])) else 0
  }

  /** `natural_sort_key`: the number after a leading `drive-` in the last path
      component, 0 when there is none. */
  function NaturalSortKey(path: string): (key: nat)
    ensures var b := Basename(path);
            var drive := |b| > 6 && b[..6] == DrivePrefix && IsDigit(b[6]);
            && (!drive ==> key == 0)
            && (drive ==> key == Value(LeadingDigits(b[6..])) && LeadingDigits(b[6..]) != [])
  {
    DriveNumber(Basename(path))
  }

  /** The key of `<parent>/drive-<digits><rest>` is the number the digits spell,
      whatever follows them. */
  lemma NaturalSortKeyOfDrive(parent: string, digits: string, rest: string)
    requires parent == [] || parent[|parent| - 1] == '/'
    requires |digits| >= 1 && AllDigits(digits)
    requires rest == [] || !IsDigit(rest[0])
    requires '/' !in rest
    ensures NaturalSortKey(parent + (DrivePrefix + (digits + rest))) == Value(digits)
  {
    var name := DrivePrefix + (digits + rest);
    assert '/' !in digits by {
      assert forall i :: 0 <= i < |digits| ==> IsDigit(digits[i]);
    }
    assert '/' !in name;
    BasenameOfJoin(parent, name);
    DriveNumberOf(digits, rest);
  }

  lemma DriveNumberOf(digits: string, rest: string)
    requires |digits| >= 1 && AllDigits(digits)
    requires rest == [] || !IsDigit(rest[0])
    ensures DriveNumber(DrivePrefix + (digits + rest)) == Value(digits)
  {
    var name := DrivePrefix + (digits + rest);
    assert name[..6] == DrivePrefix;
    assert name[6..] == digits + rest;
    assert name[6] == digits[0];
    LeadingDigitsOfRun(digits, rest);
  }

  lemma {:induction false} BasenameOfJoin(parent: string, name: string)
    requires parent == [] || parent[|parent| - 1] == '/'
    requires '/' !in name
    ensures Basename(parent + name) == name
  {
    if name != [] {
      var init := name[..|name| - 1];
      assert (parent + name)[..|parent + name| - 1] == parent + init;
      BasenameOfJoin(parent, init);
    } else {
      assert parent + name == parent;
    }
  }

  lemma {:induction false} LeadingDigitsOfRun(digits: string, rest: string)
    requires AllDigits(digits)
    requires rest == [] || !IsDigit(rest[0])
    ensures LeadingDigits(digits + rest) == digits
  {
    if digits != [] {
      assert (digits + rest)[1..] == digits[1..] + rest;
      LeadingDigitsOfRun(digits[1..], rest);
    } else {
      assert digits + rest == rest;
    }
  }

  /** A directory whose name is not `drive-` followed by a digit sorts as 0. */
  lemma NaturalSortKeyOtherwise(parent: string, name: string)
    requires parent == [] || parent[|parent| - 1] == '/'
    requires '/' !in name
    requires |name| <= 6 || name[..6] != DrivePrefix || !IsDigit(name[6])
    ensures NaturalSortKey(parent + name) == 0
  {
    BasenameOfJoin(parent, name);
  }
}
