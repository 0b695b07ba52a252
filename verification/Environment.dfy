/**
 * ChildEnvironment of wrapper/environment.go: how a child's environment is made from
 * the inherited one. `upper` stands for strings.ToUpper, the name comparison of
 * Windows; every result holds whatever it is.
 */
module Environment {
  import opened Lists
  import opened Options

  datatype Mode = Zero | Inherit | Merge | Replace | UnknownMode

  datatype Config = Config(mode: Mode, allowlist: Option<seq<string>>, sets: seq<string>, unset: seq<string>)

  datatype Platform = Platform(windows: bool, upper: string -> string)

  datatype Entry = Entry(name: string, value: string)

  datatype NameProblem = Empty | HasEquals | HasNul

  datatype Problem =
    | BadMode | SetInInherit | AllowlistInReplace
    | BadAllowed(index: nat, name: NameProblem)
    | BadUnset(index: nat, name: NameProblem)
    | SetNotAssignment(index: nat)
    | BadSetName(index: nat, name: NameProblem)
    | SetValueHasNul(index: nat)

  datatype Result<+T> = Ok(value: T) | Err(problem: Problem)

  const NUL: char := '\0'

  // ---- names and assignments ----------------------------------------------------------------

  function Canonical(name: string, p: Platform): string {
    if p.windows then p.upper(name) else name
  }

  function CheckName(name: string): Option<NameProblem> {
    if name == "" then Some(Empty)
    else if '=' in name then Some(HasEquals)
    else if NUL in name then Some(HasNul)
    else None
  }

  /** strings.Cut at the first '='. */
  function Cut(s: string): Option<Entry> {
    if s == "" then None
    else if s[0] == '=' then Some(Entry("", s[1..]))
    else match Cut(s[1..])
      case Some(e) => Some(Entry([s[0]] + e.name, e.value))
      case None => None
  }

  function Text(e: Entry): string {
    e.name + "=" + e.value
  }

  /** Cut undoes Text exactly for names without '='. */
  lemma {:induction false} CutText(name: string, value: string)
    requires '=' !in name
    ensures Cut(Text(Entry(name, value))) == Some(Entry(name, value))
  {
    var s := Text(Entry(name, value));
    if name == "" {
      assert s[1..] == value;
    } else {
      assert s[1..] == Text(Entry(name[1..], value));
      CutText(name[1..], value);
      assert [name[0]] + name[1..] == name;
    }
  }

  lemma {:induction false} CutGivesAName(s: string)
    ensures Cut(s).Some? ==> '=' !in Cut(s).value.name && Text(Cut(s).value) == s
    ensures Cut(s).None? <==> '=' !in s
  {
    if s != "" {
      assert s == [s[0]] + s[1..];
      CutGivesAName(s[1..]);
    }
  }

  /** An entry worth keeping: KEY=VALUE with a key. */
  function Assigned(assignment: string): Option<Entry> {
    match Cut(assignment)
    case Some(e) => if e.name == "" then None else Some(e)
    case None => None
  }

  // ---- which value a name ends up with --------------------------------------------------------

  /** The last assignment in the list to the canonical name c. */
  function Latest(list: seq<string>, c: string, p: Platform): Option<Entry> {
    if list == [] then None
    else
      match Assigned(Last(list))
      case Some(e) => if Canonical(e.name, p) == c then Some(e) else Latest(Front(list), c, p)
      case None => Latest(Front(list), c, p)
  }

  function Names(names: seq<string>, p: Platform): set<string> {
    set i | 0 <= i < |names| :: Canonical(names[i], p)
  }

  function Inherited(cfg: Config, inherited: seq<string>, c: string, p: Platform): Option<Entry> {
    if cfg.mode.Replace? || (cfg.allowlist.Some? && c !in Names(cfg.allowlist.value, p)) then None
    else Latest(inherited, c, p)
  }

  /** Unset wins, then the last Set, then the last allowed inherited value. */
  function Winner(cfg: Config, inherited: seq<string>, c: string, p: Platform): Option<Entry> {
    if c in Names(cfg.unset, p) then None
    else if Latest(cfg.sets, c, p).Some? then Latest(cfg.sets, c, p)
    else Inherited(cfg, inherited, c, p)
  }

  lemma {:induction false} LatestIsAnEntry(list: seq<string>, c: string, p: Platform)
    ensures var e := Latest(list, c, p); e.Some? ==>
      && Canonical(e.value.name, p) == c && e.value.name != "" && '=' !in e.value.name
      && exists a :: a in list && a == Text(e.value)
  {
    if list != [] {
      LatestIsAnEntry(Front(list), c, p);
      CutGivesAName(Last(list));
      assert Last(list) in list;
      assert forall a :: a in Front(list) ==> a in list;
    }
  }

  /** The assignment KEY=VALUE sets the canonical name c. */
  ghost predicate Assigns(a: string, c: string, p: Platform, e: Entry) {
    a == e.name + "=" + e.value && e.name != "" && '=' !in e.name && Canonical(e.name, p) == c
  }

  /** Assignment i of the list is the last to the name. */
  ghost predicate IsLatest(list: seq<string>, c: string, p: Platform, i: nat, e: Entry) {
    i < |list| && Assigns(list[i], c, p, e) && forall j, x :: i < j < |list| ==> !Assigns(list[j], c, p, x)
  }

  ghost predicate Unassigned(list: seq<string>, c: string, p: Platform) {
    forall j, x :: 0 <= j < |list| ==> !Assigns(list[j], c, p, x)
  }

  lemma AssignedIs(a: string, c: string, p: Platform, e: Entry)
    ensures Assigns(a, c, p, e) <==> Assigned(a) == Some(e) && Canonical(e.name, p) == c
  {
    CutGivesAName(a);
    if Assigns(a, c, p, e) {
      CutText(e.name, e.value);
      assert a == Text(Entry(e.name, e.value));
    }
  }

  lemma {:induction false} LatestIs(list: seq<string>, c: string, p: Platform)
    ensures Latest(list, c, p).Some? ==> exists i: nat :: IsLatest(list, c, p, i, Latest(list, c, p).value)
    ensures Latest(list, c, p).None? ==> Unassigned(list, c, p)
  {
    if list != [] {
      LatestIs(Front(list), c, p);
      forall e ensures Assigns(Last(list), c, p, e) <==> Assigned(Last(list)) == Some(e) && Canonical(e.name, p) == c {
        AssignedIs(Last(list), c, p, e);
      }
      OneMoreAssigned(list, c, p);
    }
  }

  lemma OneMoreAssigned(list: seq<string>, c: string, p: Platform)
    requires list != []
    ensures forall e: Entry :: Assigns(Last(list), c, p, e) ==> IsLatest(list, c, p, |list| - 1, e)
    ensures (forall e: Entry :: !Assigns(Last(list), c, p, e)) ==>
      (forall i: nat, e: Entry :: IsLatest(Front(list), c, p, i, e) ==> IsLatest(list, c, p, i, e))
      && (Unassigned(Front(list), c, p) ==> Unassigned(list, c, p))
  {
    assert forall j :: 0 <= j < |list| - 1 ==> Front(list)[j] == list[j];
    assert list[|list| - 1] == Last(list);
  }

  /** What a name ends up with: nothing if it is unset; else the last value set; else the last
      inherited, unless the mode replaces or an allowlist leaves it out. */
  lemma WhoWins(cfg: Config, inherited: seq<string>, c: string, p: Platform)
    ensures var (winner, unset) := (Winner(cfg, inherited, c, p), exists i :: 0 <= i < |cfg.unset| && Canonical(cfg.unset[i], p) == c);
      var inherits := !cfg.mode.Replace?
        && (cfg.allowlist.None? || exists i :: 0 <= i < |cfg.allowlist.value| && Canonical(cfg.allowlist.value[i], p) == c);
      match winner
      case Some(e) =>
        && !unset
        && ((exists i: nat :: IsLatest(cfg.sets, c, p, i, e))
            || (Unassigned(cfg.sets, c, p) && inherits && exists i: nat :: IsLatest(inherited, c, p, i, e)))
      case None => unset || (Unassigned(cfg.sets, c, p) && (!inherits || Unassigned(inherited, c, p)))
  {
    LatestIs(cfg.sets, c, p);
    LatestIs(inherited, c, p);
  }

  // ---- what makes a configuration fail ----------------------------------------------------------

  /** The first name in the list that is not one. */
  function FirstBadName(names: seq<string>): Option<(nat, NameProblem)> {
    if names == [] then None
    else if FirstBadName(Front(names)).Some? then FirstBadName(Front(names))
    else match CheckName(Last(names))
      case Some(problem) => Some((|names| - 1, problem))
      case None => None
  }

  function CheckSet(index: nat, assignment: string): Option<Problem> {
    match Cut(assignment)
    case None => Some(SetNotAssignment(index))
    case Some(e) =>
      match CheckName(e.name)
      case Some(problem) => Some(BadSetName(index, problem))
      case None => if NUL in e.value then Some(SetValueHasNul(index)) else None
  }

  function FirstBadSet(list: seq<string>): Option<Problem> {
    if list == [] then None
    else if FirstBadSet(Front(list)).Some? then FirstBadSet(Front(list))
    else CheckSet(|list| - 1, Last(list))
  }

  /** Why the configuration is refused: nothing here is inherited. */
  function ConfigProblem(cfg: Config): Option<Problem> {
    if cfg.mode.UnknownMode? then Some(BadMode)
    else if (cfg.mode.Zero? || cfg.mode.Inherit?) && cfg.sets != [] then Some(SetInInherit)
    else if cfg.mode.Replace? && cfg.allowlist.Some? then Some(AllowlistInReplace)
    else if cfg.allowlist.Some? && FirstBadName(cfg.allowlist.value).Some? then
      var (i, problem) := FirstBadName(cfg.allowlist.value).value;
      Some(BadAllowed(i, problem))
    else if FirstBadName(cfg.unset).Some? then
      var (i, problem) := FirstBadName(cfg.unset).value;
      Some(BadUnset(i, problem))
    else FirstBadSet(cfg.sets)
  }

  predicate IsName(name: string) {
    name != "" && '=' !in name && NUL !in name
  }

  ghost predicate IsSetting(a: string) {
    exists e: Entry :: a == Text(e) && IsName(e.name) && NUL !in e.value
  }

  lemma {:induction false} AllAreNames(names: seq<string>)
    ensures FirstBadName(names).None? <==> forall i :: 0 <= i < |names| ==> IsName(names[i])
    ensures FirstBadName(names).Some? ==>
      var i := FirstBadName(names).value.0;
      i < |names| && !IsName(names[i]) && forall j :: 0 <= j < i ==> IsName(names[j])
  {
    if names != [] {
      AllAreNames(Front(names));
      assert forall j :: 0 <= j < |names| - 1 ==> Front(names)[j] == names[j];
    }
  }

  lemma SettingIs(index: nat, a: string)
    ensures CheckSet(index, a).None? <==> IsSetting(a)
  {
    CutGivesAName(a);
    if IsSetting(a) {
      var e: Entry :| a == Text(e) && IsName(e.name) && NUL !in e.value;
      CutText(e.name, e.value);
    }
    if CheckSet(index, a).None? { assert a == Text(Cut(a).value); }
  }

  lemma {:induction false} AllAreSettings(list: seq<string>)
    ensures FirstBadSet(list).None? <==> forall i :: 0 <= i < |list| ==> IsSetting(list[i])
  {
    if list != [] {
      AllAreSettings(Front(list));
      SettingIs(|list| - 1, Last(list));
      assert forall j :: 0 <= j < |list| - 1 ==> Front(list)[j] == list[j];
    }
  }

  /** A configuration is accepted exactly if its mode is known, it sets nothing it may not, and
      all its names and assignments are good. */
  lemma AcceptedExactly(cfg: Config)
    ensures ConfigProblem(cfg).None? <==>
      && !cfg.mode.UnknownMode?
      && (cfg.sets == [] || cfg.mode.Merge? || cfg.mode.Replace?)
      && (cfg.mode.Replace? ==> cfg.allowlist.None?)
      && (cfg.allowlist.Some? ==> forall i :: 0 <= i < |cfg.allowlist.value| ==> IsName(cfg.allowlist.value[i]))
      && (forall i :: 0 <= i < |cfg.unset| ==> IsName(cfg.unset[i]))
      && forall i :: 0 <= i < |cfg.sets| ==> IsSetting(cfg.sets[i])
  {
    if cfg.allowlist.Some? { AllAreNames(cfg.allowlist.value); }
    AllAreNames(cfg.unset);
    AllAreSettings(cfg.sets);
  }

  // ---- the order of names --------------------------------------------------------------------------

  predicate Less(a: string, b: string) {
    b != "" && (a == "" || a[0] < b[0] || (a[0] == b[0] && Less(a[1..], b[1..])))
  }

  /** a ends, or has the smaller character, where the two first differ. */
  predicate DiffersAt(a: string, b: string, k: nat) {
    k <= |a| && k < |b| && a[..k] == b[..k] && (k == |a| || a[k] < b[k])
  }

  lemma {:induction false} LessIsLexicographic(a: string, b: string)
    ensures Less(a, b) <==> exists k: nat :: DiffersAt(a, b, k)
  {
    if a == "" || b == "" || a[0] != b[0] {
      assert Less(a, b) ==> DiffersAt(a, b, 0);
      assert forall k: nat :: 0 < k && DiffersAt(a, b, k) ==> a[..k][0] == b[..k][0];
    } else {
      LessIsLexicographic(a[1..], b[1..]);
      forall k: nat | k <= |a| && k <= |b| && k > 0 ensures DiffersAt(a, b, k) <==> DiffersAt(a[1..], b[1..], k - 1) {
        SamePrefix(a, b, k);
      }
      if Less(a, b) {
        var k: nat :| DiffersAt(a[1..], b[1..], k);
        assert DiffersAt(a, b, k + 1);
      }
      if k: nat :| DiffersAt(a, b, k) {
        assert DiffersAt(a[1..], b[1..], k - 1);
      }
    }
  }

  lemma SamePrefix(a: string, b: string, k: nat)
    requires 0 < k <= |a| && k <= |b| && a[0] == b[0]
    ensures a[..k] == b[..k] <==> a[1..][..k - 1] == b[1..][..k - 1]
  {
    assert a[..k] == [a[0]] + a[1..][..k - 1] && b[..k] == [b[0]] + b[1..][..k - 1];
    assert a[..k][1..] == a[1..][..k - 1] && b[..k][1..] == b[1..][..k - 1];
  }

  lemma {:induction false} LessIsAnOrder(a: string, b: string, c: string)
    ensures !Less(a, a)
    ensures Less(a, b) && Less(b, c) ==> Less(a, c)
    ensures a == b || Less(a, b) || Less(b, a)
    ensures !(Less(a, b) && Less(b, a))
  {
    if a != "" && b != "" && c != "" {
      LessIsAnOrder(a[1..], b[1..], c[1..]);
      assert a == [a[0]] + a[1..] && b == [b[0]] + b[1..];
    } else if a != "" && b != "" {
      LessIsAnOrder(a[1..], b[1..], "");
      assert a == [a[0]] + a[1..] && b == [b[0]] + b[1..];
    } else if a != "" {
      LessIsAnOrder(a[1..], a[1..], "");
    }
  }

  predicate Sorted(entries: seq<Entry>) {
    forall i, j :: 0 <= i < j < |entries| ==> Less(entries[i].name, entries[j].name)
  }

  /** A resolved environment: sorted by name, and exactly the winners. */
  ghost predicate IsResolution(entries: seq<Entry>, cfg: Config, inherited: seq<string>, p: Platform) {
    && Sorted(entries)
    && forall e :: e in entries <==> Winner(cfg, inherited, Canonical(e.name, p), p) == Some(e)
  }

  /** Two sorted lists of the same entries are the same list. */
  lemma {:induction false} SortedIsUnique(a: seq<Entry>, b: seq<Entry>)
    requires Sorted(a) && Sorted(b) && forall e :: e in a <==> e in b
    ensures a == b
  {
    assert (a != [] ==> a[0] in b) && (b != [] ==> b[0] in a);
    if a != [] {
      var i :| 0 <= i < |b| && b[i] == a[0];
      var j :| 0 <= j < |a| && a[j] == b[0];
      LessIsAnOrder(a[0].name, b[0].name, "");
      assert i == 0;
      forall e ensures e in a[1..] <==> e in b[1..] {
        SortedTail(a, e);
        SortedTail(b, e);
      }
      SortedIsUnique(a[1..], b[1..]);
      assert a == [a[0]] + a[1..] && b == [b[0]] + b[1..];
    }
  }

  lemma SortedTail(a: seq<Entry>, e: Entry)
    requires Sorted(a) && a != []
    ensures e in a[1..] <==> e in a && e != a[0]
  {
    LessIsAnOrder(a[0].name, "", "");
    if e in a[1..] {
      var i :| 1 <= i < |a| && a[i] == e;
      assert Less(a[0].name, a[i].name);
    }
  }

  /** One environment answers a configuration, whatever order a map was walked in. */
  lemma ResolutionIsUnique(a: seq<Entry>, b: seq<Entry>, cfg: Config, inherited: seq<string>, p: Platform)
    requires IsResolution(a, cfg, inherited, p) && IsResolution(b, cfg, inherited, p)
    ensures a == b
  {
    SortedIsUnique(a, b);
  }

  /** It has one entry for each canonical name. */
  lemma OneEntryPerName(entries: seq<Entry>, cfg: Config, inherited: seq<string>, p: Platform, i: nat, j: nat)
    requires IsResolution(entries, cfg, inherited, p) && i < j < |entries|
    ensures Canonical(entries[i].name, p) != Canonical(entries[j].name, p)
  {
    assert entries[i] in entries && entries[j] in entries;
    LessIsAnOrder(entries[i].name, entries[j].name, "");
  }

  // ---- resolving again -------------------------------------------------------------------------------

  predicate NulFree(list: seq<string>) {
    forall a :: a in list ==> NUL !in a
  }

  function Texts(entries: seq<Entry>): seq<string> {
    seq(|entries|, i requires 0 <= i < |entries| => Text(entries[i]))
  }

  function AsSet(env: seq<string>): Config {
    Config(Replace, None, env, [])
  }

  lemma WinnerIsAnEntry(cfg: Config, inherited: seq<string>, c: string, p: Platform)
    ensures var e := Winner(cfg, inherited, c, p); e.Some? ==>
      && Canonical(e.value.name, p) == c && e.value.name != "" && '=' !in e.value.name
      && (exists a :: (a in cfg.sets || a in inherited) && a == Text(e.value))
  {
    LatestIsAnEntry(cfg.sets, c, p);
    LatestIsAnEntry(inherited, c, p);
  }

  /** Every entry of a resolution is an assignment that was given. */
  lemma EntriesAreGiven(entries: seq<Entry>, cfg: Config, inherited: seq<string>, p: Platform, e: Entry)
    requires IsResolution(entries, cfg, inherited, p) && e in entries
    ensures Cut(Text(e)) == Some(e) && e.name != "" && '=' !in e.name
    ensures Text(e) in cfg.sets || Text(e) in inherited
  {
    WinnerIsAnEntry(cfg, inherited, Canonical(e.name, p), p);
    CutText(e.name, e.value);
  }

  lemma LatestOfOneMore(entries: seq<Entry>, last: Entry, c: string, p: Platform, e: Entry)
    requires Cut(Text(last)) == Some(last) && last.name != ""
    requires Latest(Texts(entries), c, p) == Some(e) <==> e in entries && Canonical(e.name, p) == c
    requires e in entries ==> Canonical(e.name, p) != Canonical(last.name, p)
    ensures Latest(Texts(entries + [last]), c, p) == Some(e) <==> e in entries + [last] && Canonical(e.name, p) == c
  {
    assert Texts(entries + [last]) == Texts(entries) + [Text(last)];
    assert Front(Texts(entries) + [Text(last)]) == Texts(entries);
  }

  lemma {:induction false} LatestOfDistinct(entries: seq<Entry>, c: string, p: Platform, e: Entry)
    requires forall x :: x in entries ==> Cut(Text(x)) == Some(x) && x.name != ""
    requires forall i, j :: 0 <= i < j < |entries| ==> Canonical(entries[i].name, p) != Canonical(entries[j].name, p)
    ensures Latest(Texts(entries), c, p) == Some(e) <==> e in entries && Canonical(e.name, p) == c
  {
    if entries != [] {
      var (front, last) := (Front(entries), Last(entries));
      assert entries == front + [last];
      LatestOfDistinct(front, c, p, e);
      if e in front {
        var k :| 0 <= k < |front| && front[k] == e;
        assert Canonical(entries[k].name, p) != Canonical(entries[|front|].name, p);
      }
      LatestOfOneMore(front, last, c, p, e);
    }
  }

  lemma InFrontOrLast<T>(list: seq<T>, x: T)
    requires list != []
    ensures x in list <==> x in Front(list) || x == Last(list)
  {
  }

  /** Assignments with a name are all accepted exactly when none contains NUL. */
  lemma {:induction false} OnlyNulIsRefused(entries: seq<Entry>)
    requires forall e :: e in entries ==> Cut(Text(e)) == Some(e) && e.name != "" && '=' !in e.name
    ensures FirstBadSet(Texts(entries)).None? <==> NulFree(Texts(entries))
  {
    if entries != [] {
      var n := |entries| - 1;
      assert Front(Texts(entries)) == Texts(entries[..n]);
      assert Last(Texts(entries)) == Text(entries[n]);
      assert entries[n] in entries && forall e :: e in entries[..n] ==> e in entries;
      OnlyNulIsRefused(entries[..n]);
      assert NUL in Text(entries[n]) <==> NUL in entries[n].name || NUL in entries[n].value;
      forall a ensures a in Texts(entries) <==> a in Texts(entries[..n]) || a == Text(entries[n]) {
        InFrontOrLast(Texts(entries), a);
      }
    }
  }

  /** Resolving a resolved environment again, in replace mode, gives it back unchanged; it
      is accepted exactly when the environment has no NUL, which input without one ensures. */
  lemma ResolvingAgainChangesNothing(entries: seq<Entry>, cfg: Config, inherited: seq<string>, p: Platform,
                                     again: seq<Entry>, ambient: seq<string>)
    requires IsResolution(entries, cfg, inherited, p)
    requires IsResolution(again, AsSet(Texts(entries)), ambient, p)
    ensures again == entries
    ensures ConfigProblem(AsSet(Texts(entries))).None? <==> NulFree(Texts(entries))
    ensures NulFree(inherited) && NulFree(cfg.sets) ==> NulFree(Texts(entries))
  {
    forall e | e in entries
      ensures Cut(Text(e)) == Some(e) && e.name != "" && '=' !in e.name && (Text(e) in cfg.sets || Text(e) in inherited)
    {
      EntriesAreGiven(entries, cfg, inherited, p, e);
    }
    OnlyNulIsRefused(entries);
    forall i, j | 0 <= i < j < |entries| ensures Canonical(entries[i].name, p) != Canonical(entries[j].name, p) {
      OneEntryPerName(entries, cfg, inherited, p, i, j);
    }
    forall e ensures e in again <==> e in entries {
      LatestOfDistinct(entries, Canonical(e.name, p), p, e);
    }
    SortedIsUnique(again, entries);
  }

  /** An environment that inherits one value with a NUL resolves, and is refused when what
      it resolved to is set again. */
  lemma InheritedNulIsRefusedAgain(name: string, value: string, p: Platform)
    requires CheckName(name).None? && NUL in value
    ensures var (cfg, e) := (Config(Inherit, None, [], []), Entry(name, value));
      && ConfigProblem(cfg).None? && IsResolution([e], cfg, [Text(e)], p)
      && ConfigProblem(AsSet(Texts([e]))) == Some(SetValueHasNul(0))
  {
    var (cfg, e) := (Config(Inherit, None, [], []), Entry(name, value));
    CutText(name, value);
    assert Front([Text(e)]) == [] && Texts([e]) == [Text(e)];
    forall x ensures x in [e] <==> Winner(cfg, [Text(e)], Canonical(x.name, p), p) == Some(x) {
      assert Latest([Text(e)], Canonical(x.name, p), p) == if Canonical(name, p) == Canonical(x.name, p) then Some(e) else None;
    }
  }

  // ---- the code ------------------------------------------------------------------------------------------

  function Lookup(values: map<string, Entry>, c: string): Option<Entry> {
    if c in values then Some(values[c]) else None
  }

  /** The values hold the last allowed inherited entry of every name. */
  ghost predicate HoldsInherited(values: map<string, Entry>, cfg: Config, inherited: seq<string>, p: Platform) {
    forall c :: Lookup(values, c) == Inherited(cfg, inherited, c, p)
  }

  /** What a name has once the assignments in sets were applied over the inherited values. */
  function SetOver(sets: seq<string>, cfg: Config, inherited: seq<string>, c: string, p: Platform): Option<Entry> {
    if Latest(sets, c, p).Some? then Latest(sets, c, p) else Inherited(cfg, inherited, c, p)
  }

  ghost predicate HoldsSet(values: map<string, Entry>, sets: seq<string>, cfg: Config, inherited: seq<string>,
                           p: Platform)
  {
    forall c :: Lookup(values, c) == SetOver(sets, cfg, inherited, c, p)
  }

  ghost predicate HoldsWinners(values: map<string, Entry>, cfg: Config, inherited: seq<string>, p: Platform) {
    forall c :: Lookup(values, c) == Winner(cfg, inherited, c, p)
  }

  lemma {:induction false} FirstBadNameOfPrefix(names: seq<string>, k: nat)
    requires k <= |names| && FirstBadName(names[..k]).Some?
    ensures FirstBadName(names) == FirstBadName(names[..k])
    decreases |names|
  {
    if k < |names| {
      assert Front(names)[..k] == names[..k];
      FirstBadNameOfPrefix(Front(names), k);
    } else {
      assert names[..k] == names;
    }
  }

  lemma {:induction false} FirstBadSetOfPrefix(list: seq<string>, k: nat)
    requires k <= |list| && FirstBadSet(list[..k]).Some?
    ensures FirstBadSet(list) == FirstBadSet(list[..k])
    decreases |list|
  {
    if k < |list| {
      assert Front(list)[..k] == list[..k];
      FirstBadSetOfPrefix(Front(list), k);
    } else {
      assert list[..k] == list;
    }
  }

  lemma PrefixEnds<T>(list: seq<T>, i: nat)
    requires i < |list|
    ensures Front(list[..i + 1]) == list[..i] && Last(list[..i + 1]) == list[i]
  {
  }

  lemma LatestStep(list: seq<string>, i: nat, c: string, p: Platform)
    requires i < |list|
    ensures Latest(list[..i + 1], c, p) == match Assigned(list[i])
      case Some(e) => if Canonical(e.name, p) == c then Some(e) else Latest(list[..i], c, p)
      case None => Latest(list[..i], c, p)
  {
    PrefixEnds(list, i);
  }

  /** environmentNameSet: the canonical names, or the first name that is not one. */
  method EnvironmentNameSet(names: seq<string>, p: Platform)
    returns (canonical: set<string>, bad: Option<(nat, NameProblem)>)
    ensures bad == FirstBadName(names)
    ensures bad.None? ==> canonical == Names(names, p)
  {
    canonical, bad := {}, None;
    for i := 0 to |names|
      invariant FirstBadName(names[..i]).None? && canonical == Names(names[..i], p)
    {
      PrefixEnds(names, i);
      var problem := CheckName(names[i]);
      if problem.Some? {
        FirstBadNameOfPrefix(names, i + 1);
        return {}, Some((i, problem.value));
      }
      canonical := canonical + {Canonical(names[i], p)};
    }
    assert names[..|names|] == names;
  }

  method LoadInherited(cfg: Config, allow: set<string>, inherited: seq<string>, p: Platform)
    returns (values: map<string, Entry>)
    requires cfg.allowlist.Some? ==> allow == Names(cfg.allowlist.value, p)
    ensures HoldsInherited(values, cfg, inherited, p)
  {
    values := map[];
    if cfg.mode != Replace {
      for i := 0 to |inherited|
        invariant HoldsInherited(values, cfg, inherited[..i], p)
      {
        ghost var before := values;
        var cut := Cut(inherited[i]);
        if cut.Some? && cut.value.name != "" {
          var key := Canonical(cut.value.name, p);
          if cfg.allowlist.None? || key in allow {
            values := values[key := cut.value];
          }
        }
        forall c ensures Lookup(values, c) == Inherited(cfg, inherited[..i + 1], c, p) {
          LatestStep(inherited, i, c, p);
          assert Lookup(before, c) == Inherited(cfg, inherited[..i], c, p);
        }
      }
      assert inherited[..|inherited|] == inherited;
    }
  }

  method ApplySet(loaded: map<string, Entry>, cfg: Config, ghost inherited: seq<string>, p: Platform)
    returns (values: map<string, Entry>, bad: Option<Problem>)
    requires HoldsInherited(loaded, cfg, inherited, p)
    ensures bad == FirstBadSet(cfg.sets)
    ensures bad.None? ==> HoldsSet(values, cfg.sets, cfg, inherited, p)
  {
    values, bad := loaded, None;
    for i := 0 to |cfg.sets|
      invariant FirstBadSet(cfg.sets[..i]).None? && HoldsSet(values, cfg.sets[..i], cfg, inherited, p)
    {
      PrefixEnds(cfg.sets, i);
      ghost var before := values;
      var problem := CheckSet(i, cfg.sets[i]);
      if problem.Some? {
        FirstBadSetOfPrefix(cfg.sets, i + 1);
        return values, problem;
      }
      var e := Cut(cfg.sets[i]).value;
      values := values[Canonical(e.name, p) := e];
      forall c ensures Lookup(values, c) == SetOver(cfg.sets[..i + 1], cfg, inherited, c, p) {
        LatestStep(cfg.sets, i, c, p);
        assert Lookup(before, c) == SetOver(cfg.sets[..i], cfg, inherited, c, p);
      }
    }
    assert cfg.sets[..|cfg.sets|] == cfg.sets;
  }

  method DeleteUnset(given: map<string, Entry>, unset: set<string>, cfg: Config, ghost inherited: seq<string>, p: Platform)
    returns (values: map<string, Entry>)
    requires HoldsSet(given, cfg.sets, cfg, inherited, p) && unset == Names(cfg.unset, p)
    ensures HoldsWinners(values, cfg, inherited, p)
  {
    values := given;
    var rest := unset;
    while rest != {}
      invariant rest <= unset
      invariant forall c :: Lookup(values, c) == if c in unset - rest then None else Lookup(given, c)
      decreases |rest|
    {
      var key :| key in rest;
      values := values - {key};
      rest := rest - {key};
    }
  }

  predicate DistinctNames(entries: seq<Entry>) {
    forall i, j :: 0 <= i < j < |entries| ==> entries[i].name != entries[j].name
  }

  /** The entries of the map, in whatever order it is walked. */
  method Collect(values: map<string, Entry>, p: Platform) returns (entries: seq<Entry>)
    requires forall c :: c in values ==> Canonical(values[c].name, p) == c
    ensures DistinctNames(entries)
    ensures forall e :: e in entries <==> Lookup(values, Canonical(e.name, p)) == Some(e)
  {
    entries := [];
    var keys := values.Keys;
    while keys != {}
      invariant keys <= values.Keys && DistinctNames(entries)
      invariant forall e :: e in entries <==> Canonical(e.name, p) !in keys && Lookup(values, Canonical(e.name, p)) == Some(e)
      decreases |keys|
    {
      var c :| c in keys;
      assert forall e :: e in entries ==> e.name != values[c].name;
      entries := entries + [values[c]];
      keys := keys - {c};
    }
  }

  /** One step of the sort. */
  function Insert(sorted: seq<Entry>, e: Entry): (r: seq<Entry>) {
    if sorted == [] then [e]
    else if Less(e.name, sorted[0].name) then [e] + sorted
    else [sorted[0]] + Insert(sorted[1..], e)
  }

  lemma {:induction false} InsertKeeps(sorted: seq<Entry>, e: Entry)
    requires Sorted(sorted) && forall f :: f in sorted ==> f.name != e.name
    ensures Sorted(Insert(sorted, e))
    ensures forall f :: f in Insert(sorted, e) <==> f in sorted || f == e
  {
    if sorted != [] {
      LessIsAnOrder(e.name, sorted[0].name, "");
      if Less(e.name, sorted[0].name) {
        forall i | 0 < i < |sorted| ensures Less(e.name, sorted[i].name) {
          LessIsAnOrder(e.name, sorted[0].name, sorted[i].name);
        }
      } else {
        var rest := Insert(sorted[1..], e);
        InsertKeeps(sorted[1..], e);
        forall i | 0 <= i < |rest| ensures Less(sorted[0].name, rest[i].name) {
          assert rest[i] in rest;
          if rest[i] != e {
            SortedTail(sorted, rest[i]);
            var k :| 0 < k < |sorted| && sorted[k] == rest[i];
          }
        }
        assert forall f :: f in sorted <==> f == sorted[0] || f in sorted[1..] by {
          assert sorted == [sorted[0]] + sorted[1..];
        }
      }
    }
  }

  /** sort.Slice by name; names are distinct, so stability does not matter. */
  method SortByName(entries: seq<Entry>) returns (r: seq<Entry>)
    requires DistinctNames(entries)
    ensures Sorted(r)
    ensures forall e :: e in r <==> e in entries
  {
    r := [];
    for i := 0 to |entries|
      invariant Sorted(r) && forall e :: e in r <==> e in entries[..i]
    {
      InsertKeeps(r, entries[i]);
      r := Insert(r, entries[i]);
      assert entries[..i + 1] == entries[..i] + [entries[i]];
    }
    assert entries[..|entries|] == entries;
  }

  datatype Resolved = Resolved(env: seq<string>, explicit: bool)

  /** The result of a configuration that is accepted. */
  ghost predicate IsResolved(r: Resolved, cfg: Config, inherited: seq<string>, p: Platform) {
    && (exists entries :: IsResolution(entries, cfg, inherited, p) && r.env == Texts(entries))
    && r.explicit == (cfg.mode != Zero || cfg.allowlist.Some? || cfg.unset != [])
  }

  /** resolveForOS. It fails exactly for a bad configuration, which does not depend on the
      inherited environment: what New accepted against nil, Run accepts against anything. */
  method Resolve(cfg: Config, inherited: seq<string>, p: Platform) returns (r: Result<Resolved>)
    ensures r.Err? <==> ConfigProblem(cfg).Some?
    ensures r.Err? ==> ConfigProblem(cfg) == Some(r.problem)
    ensures r.Ok? ==> IsResolved(r.value, cfg, inherited, p)
  {
    if cfg.mode == UnknownMode {
      return Err(BadMode);
    }
    if (cfg.mode == Zero || cfg.mode == Inherit) && cfg.sets != [] {
      return Err(SetInInherit);
    }
    if cfg.mode == Replace && cfg.allowlist.Some? {
      return Err(AllowlistInReplace);
    }
    var allow, badAllowed := EnvironmentNameSet(if cfg.allowlist.Some? then cfg.allowlist.value else [], p);
    if badAllowed.Some? {
      return Err(BadAllowed(badAllowed.value.0, badAllowed.value.1));
    }
    var unset, badUnset := EnvironmentNameSet(cfg.unset, p);
    if badUnset.Some? {
      return Err(BadUnset(badUnset.value.0, badUnset.value.1));
    }
    var values := LoadInherited(cfg, allow, inherited, p);
    var bad;
    values, bad := ApplySet(values, cfg, inherited, p);
    if bad.Some? {
      return Err(bad.value);
    }
    values := DeleteUnset(values, unset, cfg, inherited, p);
    forall c | c in values ensures Canonical(values[c].name, p) == c {
      assert Lookup(values, c) == Some(values[c]);
      WinnerIsAnEntry(cfg, inherited, c, p);
    }
    var entries := Collect(values, p);
    entries := SortByName(entries);
    assert IsResolution(entries, cfg, inherited, p);
    return Ok(Resolved(Texts(entries), cfg.mode != Zero || cfg.allowlist.Some? || cfg.unset != []));
  }

  /** resolvedSpecEnvironment: no Spec.Env keeps the base, any other replaces it. */
  method ResolvedSpecEnvironment(base: seq<string>, spec: Option<seq<string>>, p: Platform)
    returns (r: Result<Resolved>)
    ensures spec.None? ==> r == Ok(Resolved(base, false))
    ensures spec.Some? ==> (r.Ok? <==> FirstBadSet(spec.value).None?)
    ensures spec.Some? && r.Ok? ==>
      r.value.explicit && exists entries :: IsResolution(entries, AsSet(spec.value), [], p) && r.value.env == Texts(entries)
  {
    if spec.None? {
      return Ok(Resolved(base, false));
    }
    r := Resolve(AsSet(spec.value), [], p);
  }

  /** The answer does not depend on the order in which maps were walked. */
  lemma OneAnswer(cfg: Config, inherited: seq<string>, p: Platform, a: Resolved, b: Resolved)
    requires IsResolved(a, cfg, inherited, p) && IsResolved(b, cfg, inherited, p)
    ensures a == b
  {
    var x :| IsResolution(x, cfg, inherited, p) && a.env == Texts(x);
    var y :| IsResolution(y, cfg, inherited, p) && b.env == Texts(y);
    ResolutionIsUnique(x, y, cfg, inherited, p);
  }
}
