/** Recipient resolution, `Klaxon.recipients` (lib/klaxon.rb:56-71): every
    recipient group whose category and severity patterns both find a match
    in the alert contributes its recipients; the lists are flattened, nils
    dropped and duplicates removed, keeping first occurrences. */
module Recipients {
  import opened RubyValues
  import opened KlaxonConfig
  import opened Alerts

  /** The regular-expression engine, left uninterpreted: `engine(re, s, i)`
      holds when a match of `re`, read with its options, begins at offset
      `i` of `s`. */
  type Engine = (Regex, string, nat) -> bool

  /** The leftmost offset at or after `from` where a match begins. */
  function MatchFrom(engine: Engine, re: Regex, s: string, from: nat): (index: Option<nat>)
    decreases |s| + 1 - from
    ensures index.Some? ==> from <= index.value <= |s| && engine(re, s, index.value)
    ensures index.Some? ==> forall j :: from <= j < index.value ==> !engine(re, s, j)
    ensures index.None? ==> forall j :: from <= j <= |s| ==> !engine(re, s, j)
  {
    if from > |s| then None
    else if engine(re, s, from) then Some(from)
    else MatchFrom(engine, re, s, from + 1)
  }

  /** `s =~ re`: an unanchored search, giving the offset of the leftmost
      match or nil. A match anywhere in `s` is found, not only one that
      spans the whole string. */
  function MatchIndex(engine: Engine, re: Regex, s: string): (index: Option<nat>)
    ensures index.Some? ==> index.value <= |s| && engine(re, s, index.value)
    ensures index.Some? ==> forall j :: 0 <= j < index.value ==> !engine(re, s, j)
    ensures index.None? <==> forall j :: 0 <= j <= |s| ==> !engine(re, s, j)
  {
    MatchFrom(engine, re, s, 0)
  }

  /** `s =~ re` used as a condition: any offset is truthy, 0 included. */
  predicate Matches(engine: Engine, re: Regex, s: string)
  {
    MatchIndex(engine, re, s).Some?
  }

  /** `Regexp.new(v)`: a regular expression is copied, options included, and
      a string is taken as the source of one without options; nil, and every other kind of value, raises
      `TypeError`. There is no match-all default for a missing pattern. */
  function CompileRegexp(v: Value): (compiled: Outcome<Regex>)
    ensures compiled.Ok? <==> v.Pattern? || v.Str?
    ensures v.Pattern? ==> compiled.value == v.re
    ensures v.Str? ==> compiled.value == Regex(v.s, false, false, false)
    ensures compiled.Raised? ==> compiled.error.className == "TypeError"
  {
    match v
    case Pattern(re) => Ok(re)
    case Str(s) => Ok(Regex(s, false, false, false))
    case _ => Raised(LibraryRaised("TypeError", "no implicit conversion into String"))
  }

  /** The group's `:category` pattern compiles and matches the alert's category. */
  predicate CategoryMatches(engine: Engine, group: Group, alert: Alert)
  {
    var re := CompileRegexp(Get(group, "category"));
    re.Ok? && Matches(engine, re.value, alert.fields.category)
  }

  /** The group's `:severity` pattern compiles and matches the alert's severity. */
  predicate SeverityMatches(engine: Engine, group: Group, alert: Alert)
  {
    var re := CompileRegexp(Get(group, "severity"));
    re.Ok? && Matches(engine, re.value, alert.fields.severity)
  }

  /** The condition of lib/klaxon.rb:63, evaluated as Ruby does: the group
      applies when both patterns match; the severity pattern is only built
      when the category matched, so only then can it raise. */
  function Applies(engine: Engine, group: Group, alert: Alert): (applies: Outcome<bool>)
    ensures applies == Ok(true) <==> CategoryMatches(engine, group, alert) && SeverityMatches(engine, group, alert)
    ensures applies.Raised? <==>
              || CompileRegexp(Get(group, "category")).Raised?
              || (CategoryMatches(engine, group, alert) && CompileRegexp(Get(group, "severity")).Raised?)
  {
    match CompileRegexp(Get(group, "category"))
    case Raised(e) => Raised(e)
    case Ok(categoryRe) =>
      if !Matches(engine, categoryRe, alert.fields.category) then Ok(false)
      else
        match CompileRegexp(Get(group, "severity"))
        case Raised(e) => Raised(e)
        case Ok(severityRe) => Ok(Matches(engine, severityRe, alert.fields.severity))
  }

  /** The group applies to the alert without raising. */
  predicate Applicable(engine: Engine, group: Group, alert: Alert)
  {
    Applies(engine, group, alert) == Ok(true)
  }

  /** The block passed to `groups.collect` (lib/klaxon.rb:63-67), for
      `alert`: whether a group applies, or what its test raises. */
  function GroupTest(engine: Engine, alert: Alert): Group -> Outcome<bool>
  {
    group => Applies(engine, group, alert)
  }

  /** Group `k` is the first whose test raises, and it raises `e`. */
  predicate FirstRaising(test: Group -> Outcome<bool>, groups: seq<Group>, k: int, e: Exception)
  {
    && 0 <= k < |groups|
    && (forall j :: 0 <= j < k ==> test(groups[j]).Ok?)
    && test(groups[k]) == Raised(e)
  }

  /** `groups.collect { ... }` (lib/klaxon.rb:62-68) with the block `test`:
      a group's `:recipients` entry where the test holds, nil where it
      does not; the first group whose test raises ends the walk with that
      exception. */
  function Collect(test: Group -> Outcome<bool>, groups: seq<Group>): (lists: Outcome<seq<Value>>)
    ensures lists.Ok? <==> forall k :: 0 <= k < |groups| ==> test(groups[k]).Ok?
    ensures lists.Ok? ==> |lists.value| == |groups|
    ensures lists.Ok? ==> forall k :: 0 <= k < |groups| ==>
              lists.value[k] == if test(groups[k]) == Ok(true) then Get(groups[k], "recipients") else Nil
    ensures lists.Raised? ==> exists k :: FirstRaising(test, groups, k, lists.error)
  {
    if groups == [] then Ok([])
    else
      match test(groups[0])
      case Raised(e) =>
        assert FirstRaising(test, groups, 0, e);
        Raised(e)
      case Ok(applies) =>
        var later := groups[1..];
        match Collect(test, later)
        case Raised(e) =>
          var k :| FirstRaising(test, later, k, e);
          assert forall j :: 1 <= j <= k + 1 ==> groups[j] == later[j - 1];
          assert FirstRaising(test, groups, k + 1, e);
          Raised(e)
        case Ok(rest) =>
          assert forall j :: 1 <= j < |groups| ==> groups[j] == later[j - 1];
          Ok([if applies then Get(groups[0], "recipients") else Nil] + rest)
  }

  /** `Array#flatten`: nested arrays are spliced in, at every depth; a list
      without arrays comes back unchanged, so every other element is kept,
      in order and as often as it occurs (see also `FlattenAppend`). */
  function Flatten(vs: seq<Value>): (flat: seq<Value>)
    ensures forall i :: 0 <= i < |flat| ==> !flat[i].Arr?
    ensures (forall i :: 0 <= i < |vs| ==> !vs[i].Arr?) ==> flat == vs
    decreases vs, 1
  {
    if vs == [] then []
    else Spliced(vs[0]) + Flatten(vs[1..])
  }

  /** What one element of a list stands for once flattened: the flattened
      items of an array, any other value itself. */
  function Spliced(v: Value): (flat: seq<Value>)
    ensures forall i :: 0 <= i < |flat| ==> !flat[i].Arr?
    ensures !v.Arr? ==> flat == [v]
    ensures v.Arr? ==> flat == Flatten(v.items)
    decreases v, 0
  {
    match v
    case Arr(items) => Flatten(items)
    case _ => [v]
  }

  /** `Array#compact`: drops the nils and keeps the rest in order: a list
      without nils comes back unchanged, and every other element occurs as
      often as before (see also `CompactAppend`). */
  function Compact(vs: seq<Value>): (kept: seq<Value>)
    ensures forall x :: x in kept <==> x in vs && x != Nil
    ensures Nil !in vs ==> kept == vs
    ensures multiset(kept) == multiset(vs)[Nil := 0]
  {
    if vs == [] then []
    else
      assert vs == [vs[0]] + vs[1..];
      (if vs[0] == Nil then [] else [vs[0]]) + Compact(vs[1..])
  }

  /** No element occurs twice. */
  predicate NoDuplicates(vs: seq<Value>)
  {
    forall i, j :: 0 <= i < j < |vs| ==> vs[i] != vs[j]
  }

  /** `Array#uniq`: every element once, at the place it first occurs. */
  function Uniq(vs: seq<Value>): (unique: seq<Value>)
    ensures NoDuplicates(unique)
    ensures forall x :: x in unique <==> x in vs
  {
    if vs == [] then []
    else
      var seen := Uniq(vs[..|vs| - 1]);
      var last := vs[|vs| - 1];
      assert forall x :: x in vs <==> x in vs[..|vs| - 1] || x == last;
      if last in seen then seen else seen + [last]
  }

  /** The position of the first occurrence of `x` in `vs`. */
  function FirstIndex(vs: seq<Value>, x: Value): (i: nat)
    requires x in vs
    ensures i < |vs| && vs[i] == x && x !in vs[..i]
  {
    if vs[0] == x then 0 else 1 + FirstIndex(vs[1..], x)
  }

  /** The recipients a group's `:recipients` entry stands for: its non-nil
      leaves, in order. */
  function Leaves(recipients: Value): seq<Value>
  {
    Compact(Flatten([recipients]))
  }

  /** What one group contributes: its recipients when it applies, nothing
      otherwise. */
  function Listed(engine: Engine, group: Group, alert: Alert): seq<Value>
  {
    if Applicable(engine, group, alert) then Leaves(Get(group, "recipients")) else []
  }

  /** The recipients of every applicable group, group by group, each in the
      order of its list, duplicates included. */
  function Contributed(engine: Engine, groups: seq<Group>, alert: Alert): seq<Value>
  {
    if groups == [] then []
    else Listed(engine, groups[0], alert) + Contributed(engine, groups[1..], alert)
  }

  /** `Klaxon.recipients(alert)` on the configured group list: calling
      `collect` on a nil list raises `NoMethodError`; otherwise
      `rec_lists.flatten.compact.uniq`. */
  function Resolve(engine: Engine, groups: Option<seq<Group>>, alert: Alert): (resolved: Outcome<seq<Value>>)
    ensures groups.None? ==> resolved.Raised? && resolved.error.className == "NoMethodError"
    ensures resolved.Ok? ==> NoDuplicates(resolved.value)
    ensures resolved.Ok? ==> forall x :: x in resolved.value ==> x != Nil && !x.Arr?
  {
    if groups.None? then
      Raised(LibraryRaised("NoMethodError", "undefined method `collect' for nil:NilClass"))
    else
      match Collect(GroupTest(engine, alert), groups.value)
      case Raised(e) => Raised(e)
      case Ok(lists) => Ok(Uniq(Compact(Flatten(lists))))
  }

  // ---------------------------------------------------------------------
  // Properties of the pipeline pieces

  /** A nested array is replaced by its own items, flattened in turn. */
  lemma FlattenNested(items: seq<Value>)
    ensures Flatten([Arr(items)]) == Flatten(items)
  {
    assert [Arr(items)][1..] == [];
    assert Flatten(items) + [] == Flatten(items);
  }

  /** Flattening distributes over concatenation. */
  lemma {:induction false} FlattenAppend(a: seq<Value>, b: seq<Value>)
    ensures Flatten(a + b) == Flatten(a) + Flatten(b)
  {
    if a == [] {
      assert a + b == b;
    } else {
      assert (a + b)[0] == a[0] && (a + b)[1..] == a[1..] + b;
      FlattenAppend(a[1..], b);
    }
  }

  /** Dropping nils distributes over concatenation. */
  lemma {:induction false} CompactAppend(a: seq<Value>, b: seq<Value>)
    ensures Compact(a + b) == Compact(a) + Compact(b)
  {
    if a == [] {
      assert a + b == b;
    } else {
      assert (a + b)[1..] == a[1..] + b;
      CompactAppend(a[1..], b);
    }
  }

  /** Flattening and compacting the collected lists gives exactly the
      recipients the applicable groups contribute, in group order. */
  lemma {:induction false} CollectedRecipients(engine: Engine, groups: seq<Group>, alert: Alert)
    requires Collect(GroupTest(engine, alert), groups).Ok?
    ensures Compact(Flatten(Collect(GroupTest(engine, alert), groups).value)) == Contributed(engine, groups, alert)
  {
    if groups != [] {
      var lists := Collect(GroupTest(engine, alert), groups).value;
      var rest := Collect(GroupTest(engine, alert), groups[1..]);
      assert rest.Ok? && lists == [lists[0]] + rest.value;
      CollectedRecipients(engine, groups[1..], alert);
      FlattenAppend([lists[0]], rest.value);
      CompactAppend(Flatten([lists[0]]), Flatten(rest.value));
      if !Applicable(engine, groups[0], alert) {
        assert lists[0] == Nil;
        assert Flatten([Nil]) == [Nil];
      }
    }
  }

  /** A recipient is contributed exactly when some applicable group lists it. */
  lemma {:induction false} ContributedMembers(engine: Engine, groups: seq<Group>, alert: Alert, x: Value)
    ensures x in Contributed(engine, groups, alert) <==>
              exists k :: 0 <= k < |groups| && x in Listed(engine, groups[k], alert)
  {
    if groups != [] {
      var later := groups[1..];
      var own, more := Listed(engine, groups[0], alert), Contributed(engine, later, alert);
      assert x in Contributed(engine, groups, alert) <==> x in own || x in more;
      ContributedMembers(engine, later, alert, x);
      if x in more {
        var k :| 0 <= k < |later| && x in Listed(engine, later[k], alert);
        assert groups[k + 1] == later[k];
      }
      if exists k :: 0 <= k < |groups| && x in Listed(engine, groups[k], alert) {
        var k :| 0 <= k < |groups| && x in Listed(engine, groups[k], alert);
        if k > 0 {
          assert groups[k] == later[k - 1];
        }
      }
    }
  }

  /** An array of strings, as `Config#notify` stores it, stands for exactly
      its strings, in order. */
  lemma {:induction false} LeavesOfStrings(items: seq<Value>)
    requires forall i :: 0 <= i < |items| ==> items[i].Str?
    ensures Leaves(Arr(items)) == items
  {
    assert [Arr(items)][1..] == [];
    assert Flatten([Arr(items)]) == Flatten(items) + Flatten([]);
    assert Flatten(items) + [] == Flatten(items);
  }

  /** The first occurrence of an element of a prefix does not move when
      more elements are appended. */
  lemma FirstIndexInPrefix(p: seq<Value>, q: seq<Value>, x: Value)
    requires x in p
    ensures FirstIndex(p + q, x) == FirstIndex(p, x)
  {
    var i, j := FirstIndex(p + q, x), FirstIndex(p, x);
    assert (p + q)[j] == x;
  }

  /** `uniq` keeps elements in the order of their first occurrence. */
  lemma {:induction false} UniqOrder(vs: seq<Value>)
    ensures forall i, j :: 0 <= i < j < |Uniq(vs)| ==> FirstIndex(vs, Uniq(vs)[i]) < FirstIndex(vs, Uniq(vs)[j])
  {
    if vs != [] {
      var prefix, last := vs[..|vs| - 1], vs[|vs| - 1];
      assert vs == prefix + [last];
      var seen := Uniq(prefix);
      UniqOrder(prefix);
      forall y | y in seen
        ensures FirstIndex(vs, y) == FirstIndex(prefix, y) < |prefix|
      {
        FirstIndexInPrefix(prefix, [last], y);
      }
      if last !in seen {
        assert last !in prefix;
        assert vs[..|prefix|] == prefix;
        assert FirstIndex(vs, last) == |prefix|;
        var u := seen + [last];
        assert Uniq(vs) == u;
        forall i, j | 0 <= i < j < |u|
          ensures FirstIndex(vs, u[i]) < FirstIndex(vs, u[j])
        {
          assert u[i] == seen[i] && u[i] in seen;
          if j < |seen| {
            assert u[j] == seen[j] && u[j] in seen;
            assert FirstIndex(prefix, seen[i]) < FirstIndex(prefix, seen[j]);
          } else {
            assert u[j] == last;
          }
        }
      }
    }
  }

  // ---------------------------------------------------------------------
  // What `Klaxon.recipients` promises

  /** The result holds every recipient of every applicable group and
      nothing else, each once, and never nil. */
  lemma ResolveMembers(engine: Engine, groups: seq<Group>, alert: Alert)
    requires Resolve(engine, Some(groups), alert).Ok?
    ensures var r := Resolve(engine, Some(groups), alert).value;
            && NoDuplicates(r)
            && (forall x :: x in r ==> x != Nil)
            && (forall x :: x in r <==> exists k :: 0 <= k < |groups| && x in Listed(engine, groups[k], alert))
  {
    CollectedRecipients(engine, groups, alert);
    forall x {
      ContributedMembers(engine, groups, alert, x);
    }
  }

  /** The result lists recipients in the order they are first met, walking
      the applicable groups in list order and each group's list in order;
      it is not sorted. */
  lemma ResolveOrder(engine: Engine, groups: seq<Group>, alert: Alert)
    requires Resolve(engine, Some(groups), alert).Ok?
    ensures var r := Resolve(engine, Some(groups), alert).value;
            var all := Contributed(engine, groups, alert);
            && (forall x :: x in r <==> x in all)
            && forall i, j :: 0 <= i < j < |r| ==> FirstIndex(all, r[i]) < FirstIndex(all, r[j])
  {
    var lists := Collect(GroupTest(engine, alert), groups).value;
    var all := Contributed(engine, groups, alert);
    CollectedRecipients(engine, groups, alert);
    assert Resolve(engine, Some(groups), alert).value == Uniq(all);
    UniqOrder(all);
  }

  /** `recipients` raises exactly when the group list is nil or some group's
      test raises; the exception is that of the first such group. */
  lemma ResolveRaises(engine: Engine, groups: Option<seq<Group>>, alert: Alert)
    ensures Resolve(engine, groups, alert).Raised? <==>
              || groups.None?
              || exists k :: 0 <= k < |groups.value| && Applies(engine, groups.value[k], alert).Raised?
    ensures groups.None? ==> Resolve(engine, groups, alert).error.className == "NoMethodError"
    ensures groups.Some? && Resolve(engine, groups, alert).Raised? ==>
              exists k :: 0 <= k < |groups.value|
                && (forall j :: 0 <= j < k ==> Applies(engine, groups.value[j], alert).Ok?)
                && Applies(engine, groups.value[k], alert) == Raised(Resolve(engine, groups, alert).error)
  {
    if groups.Some? {
      var lists := Collect(GroupTest(engine, alert), groups.value);
      if exists k :: 0 <= k < |groups.value| && Applies(engine, groups.value[k], alert).Raised? {
        assert lists.Raised?;
      }
    }
  }

  /** An empty group list yields no recipients. */
  lemma ResolveEmpty(engine: Engine, alert: Alert)
    ensures Resolve(engine, Some([]), alert) == Ok([])
  {
  }

  /** A group missing its `:category` entry cannot be evaluated: compiling
      the nil pattern raises `TypeError` rather than matching everything. */
  lemma MissingCategoryRaises(engine: Engine, group: Group, alert: Alert)
    requires "category" !in group
    ensures Applies(engine, group, alert).Raised?
    ensures Applies(engine, group, alert).error.className == "TypeError"
  {
  }

  /** A match found at any offset makes the pattern apply: `=~` searches,
      it does not compare whole strings. */
  lemma MatchAnywhere(engine: Engine, re: Regex, s: string, at: nat)
    requires at <= |s| && engine(re, s, at)
    ensures Matches(engine, re, s)
    ensures MatchIndex(engine, re, s).value <= at
  {
  }
}
