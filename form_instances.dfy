/**
 * The "My Form Instances" list: a status filter, a date sort in either
 * direction, the form-name lookup, and what each row shows and links to.
 */
module FormInstances {
  import opened StringUtil

  /**
   * A saved form instance. `submitted` is the truthiness of its
   * `data.submitted` member; `updatedAt` is its modification time in
   * milliseconds.
   */
  datatype FormInstance = FormInstance(id: string, formId: string, submitted: bool, updatedAt: int)

  /** A form definition, as far as the list reads it. */
  datatype Form = Form(id: string, name: string)

  datatype SortMode = Desc | Asc

  /** The sort button: it flips between newest-first and oldest-first. */
  function Toggle(m: SortMode): (r: SortMode)
    ensures r != m
  {
    if m == Desc then Asc else Desc
  }

  lemma ToggleTwiceRestores(m: SortMode)
    ensures Toggle(Toggle(m)) == m
  {
  }

  // ---------------------------------------------------------------- names

  /** `getFormName`: the name of the first form with that id, else the id itself. */
  function GetFormName(forms: seq<Form>, formId: string): (r: string)
    ensures (forall i :: 0 <= i < |forms| ==> forms[i].id != formId) ==> r == formId
    ensures forall i :: 0 <= i < |forms| && forms[i].id == formId && (forall j :: 0 <= j < i ==> forms[j].id != formId) ==>
      r == forms[i].name
  {
    if forms == [] then formId
    else if forms[0].id == formId then forms[0].name
    else
      var r := GetFormName(forms[1..], formId);
      assert forall i :: 1 <= i < |forms| ==> forms[i] == forms[1..][i - 1];
      r
  }

  // -------------------------------------------------------------- filtering

  /** Whether the status filter keeps an instance; values other than "draft" and "submitted" keep all. */
  predicate Keeps(filter: string, inst: FormInstance) {
    if filter == "all" then true
    else if filter == "draft" then !inst.submitted
    else if filter == "submitted" then inst.submitted
    else true
  }

  /** `filtered`: the kept instances, in their original order. */
  function Filtered(instances: seq<FormInstance>, filter: string): (r: seq<FormInstance>)
    ensures |r| <= |instances|
    ensures forall i :: 0 <= i < |r| ==> Keeps(filter, r[i])
    ensures multiset(r) <= multiset(instances)
  {
    if instances == [] then []
    else
      var rest := Filtered(instances[1..], filter);
      assert instances == [instances[0]] + instances[1..];
      if Keeps(filter, instances[0]) then [instances[0]] + rest else rest
  }

  /** Filtering keeps order: it distributes over concatenation. */
  lemma {:induction false} FilteredAppend(a: seq<FormInstance>, b: seq<FormInstance>, filter: string)
    ensures Filtered(a + b, filter) == Filtered(a, filter) + Filtered(b, filter)
    decreases |a|
  {
    if a == [] {
      assert a + b == b;
    } else {
      assert (a + b)[1..] == a[1..] + b;
      FilteredAppend(a[1..], b, filter);
    }
  }

  /** "all", and any value the select does not offer, keep every instance. */
  lemma {:induction false} UnfilteredKeepsAll(instances: seq<FormInstance>, filter: string)
    requires filter != "draft" && filter != "submitted"
    ensures Filtered(instances, filter) == instances
    decreases |instances|
  {
    if instances != [] {
      UnfilteredKeepsAll(instances[1..], filter);
    }
  }

  /** "draft" and "submitted" split the instances between them: every instance lands in exactly one. */
  lemma {:induction false} DraftAndSubmittedPartition(instances: seq<FormInstance>)
    ensures multiset(Filtered(instances, "draft")) + multiset(Filtered(instances, "submitted")) == multiset(instances)
    decreases |instances|
  {
    if instances != [] {
      var x, rest := instances[0], instances[1..];
      DraftAndSubmittedPartition(rest);
      FilteredCons(x, rest, "draft");
      FilteredCons(x, rest, "submitted");
      assert instances == [x] + rest;
      assert multiset([x] + rest) == multiset{x} + multiset(rest);
    }
  }

  /** One unfolding of `Filtered` on a non-empty list. */
  lemma FilteredCons(x: FormInstance, rest: seq<FormInstance>, filter: string)
    ensures multiset(Filtered([x] + rest, filter)) ==
      (if Keeps(filter, x) then multiset{x} else multiset{}) + multiset(Filtered(rest, filter))
  {
    assert ([x] + rest)[1..] == rest;
  }

  // ---------------------------------------------------------------- sorting

  /** `a` belongs strictly before `b` under the comparator of mode `m`. */
  predicate Before(m: SortMode, a: FormInstance, b: FormInstance) {
    if m == Desc then a.updatedAt > b.updatedAt else a.updatedAt < b.updatedAt
  }

  /** No element comes strictly before an earlier one. */
  predicate Ordered(m: SortMode, xs: seq<FormInstance>) {
    forall i, j :: 0 <= i < j < |xs| ==> !Before(m, xs[j], xs[i])
  }

  /** Newest first in "desc" mode, oldest first in "asc" mode. */
  lemma OrderedMeansDates(m: SortMode, xs: seq<FormInstance>)
    requires Ordered(m, xs)
    ensures m == Desc ==> forall i, j :: 0 <= i < j < |xs| ==> xs[i].updatedAt >= xs[j].updatedAt
    ensures m == Asc ==> forall i, j :: 0 <= i < j < |xs| ==> xs[i].updatedAt <= xs[j].updatedAt
  {
    forall i, j | 0 <= i < j < |xs|
      ensures m == Desc ==> xs[i].updatedAt >= xs[j].updatedAt
      ensures m == Asc ==> xs[i].updatedAt <= xs[j].updatedAt
    {
      assert !Before(m, xs[j], xs[i]);
    }
  }

  /** Place `x` after every element it does not come strictly before, which keeps equal dates in arrival order. */
  function Insert(m: SortMode, xs: seq<FormInstance>, x: FormInstance): (r: seq<FormInstance>)
    ensures multiset(r) == multiset(xs) + multiset{x}
    ensures |r| == |xs| + 1
  {
    if xs == [] then [x]
    else if Before(m, x, xs[0]) then [x] + xs
    else
      assert xs == [xs[0]] + xs[1..];
      [xs[0]] + Insert(m, xs[1..], x)
  }

  lemma {:induction false} InsertOrdered(m: SortMode, xs: seq<FormInstance>, x: FormInstance)
    requires Ordered(m, xs)
    ensures Ordered(m, Insert(m, xs, x))
    decreases |xs|
  {
    if xs != [] && !Before(m, x, xs[0]) {
      InsertOrdered(m, xs[1..], x);
      var r := Insert(m, xs, x);
      assert r == [xs[0]] + Insert(m, xs[1..], x);
      forall j | 0 < j < |r|
        ensures !Before(m, r[j], r[0])
      {
        assert r[j] in multiset(Insert(m, xs[1..], x));
        assert r[j] in multiset(xs[1..]) + multiset{x};
        if r[j] != x {
          var k :| 0 <= k < |xs[1..]| && xs[1..][k] == r[j];
          assert xs[k + 1] == r[j];
        }
      }
    }
  }

  /** `[...filtered].sort(byDate)`: sort a copy, stably, by modification time. */
  function SortByDate(m: SortMode, xs: seq<FormInstance>): (r: seq<FormInstance>)
    ensures multiset(r) == multiset(xs)
    ensures |r| == |xs|
    decreases |xs|
  {
    if xs == [] then []
    else
      assert xs == xs[..|xs| - 1] + [xs[|xs| - 1]];
      Insert(m, SortByDate(m, xs[..|xs| - 1]), xs[|xs| - 1])
  }

  /** The sorted list is ordered in the chosen direction. */
  lemma {:induction false} SortByDateOrdered(m: SortMode, xs: seq<FormInstance>)
    ensures Ordered(m, SortByDate(m, xs))
    decreases |xs|
  {
    if xs != [] {
      SortByDateOrdered(m, xs[..|xs| - 1]);
      InsertOrdered(m, SortByDate(m, xs[..|xs| - 1]), xs[|xs| - 1]);
    }
  }

  /** An element that comes strictly before none of `xs` is inserted last. */
  lemma {:induction false} InsertLast(m: SortMode, xs: seq<FormInstance>, x: FormInstance)
    requires forall i :: 0 <= i < |xs| ==> !Before(m, x, xs[i])
    ensures Insert(m, xs, x) == xs + [x]
    decreases |xs|
  {
    if xs != [] {
      assert !Before(m, x, xs[0]);
      InsertLast(m, xs[1..], x);
      assert [xs[0]] + (xs[1..] + [x]) == xs + [x];
    }
  }

  /**
   * The sort moves nothing that is already in order; in particular
   * instances with equal dates keep the order they arrived in.
   */
  lemma {:induction false} SortByDateKeepsOrdered(m: SortMode, xs: seq<FormInstance>)
    requires Ordered(m, xs)
    ensures SortByDate(m, xs) == xs
    decreases |xs|
  {
    if xs != [] {
      var n := |xs| - 1;
      var prefix := xs[..n];
      OrderedSplit(m, xs, prefix);
      SortByDateKeepsOrdered(m, prefix);
      assert SortByDate(m, xs) == Insert(m, prefix, xs[n]);
      InsertLast(m, prefix, xs[n]);
      DropLastAppend(xs);
    }
  }

  lemma DropLastAppend<T>(xs: seq<T>)
    requires xs != []
    ensures xs[..|xs| - 1] + [xs[|xs| - 1]] == xs
  {
  }

  /** An ordered non-empty list is an ordered prefix followed by an element that belongs after all of it. */
  lemma OrderedSplit(m: SortMode, xs: seq<FormInstance>, prefix: seq<FormInstance>)
    requires Ordered(m, xs) && xs != [] && prefix == xs[..|xs| - 1]
    ensures Ordered(m, prefix)
    ensures forall i :: 0 <= i < |prefix| ==> !Before(m, xs[|xs| - 1], prefix[i])
  {
    forall i, j | 0 <= i < j < |prefix|
      ensures !Before(m, prefix[j], prefix[i])
    {
      assert prefix[i] == xs[i] && prefix[j] == xs[j];
    }
    forall i | 0 <= i < |prefix|
      ensures !Before(m, xs[|xs| - 1], prefix[i])
    {
      assert prefix[i] == xs[i];
    }
  }

  /** The rows the table shows: the filtered instances, sorted, and no others. */
  function Rows(instances: seq<FormInstance>, filter: string, m: SortMode): (r: seq<FormInstance>)
    ensures multiset(r) == multiset(Filtered(instances, filter))
  {
    SortByDate(m, Filtered(instances, filter))
  }

  lemma RowsSortedAndKept(instances: seq<FormInstance>, filter: string, m: SortMode)
    ensures Ordered(m, Rows(instances, filter, m))
    ensures forall i :: 0 <= i < |Rows(instances, filter, m)| ==> Keeps(filter, Rows(instances, filter, m)[i])
  {
    SortByDateOrdered(m, Filtered(instances, filter));
    var r := Rows(instances, filter, m);
    forall i | 0 <= i < |r|
      ensures Keeps(filter, r[i])
    {
      assert r[i] in multiset(Filtered(instances, filter));
    }
  }

  // ----------------------------------------------------------- one table row

  function StatusLabel(inst: FormInstance): string {
    if inst.submitted then "Submitted" else "Draft"
  }

  function ActionLabel(inst: FormInstance): string {
    if inst.submitted then "View" else "Edit"
  }

  /** Where the row's button navigates: the read-only view when submitted, else the fill page. */
  function NavTarget(inst: FormInstance): (r: string)
    ensures StartsWith(r, "/forms/view/") <==> inst.submitted
    ensures StartsWith(r, "/forms/fill/") <==> !inst.submitted
    ensures |r| >= 12 && r[12..] == inst.formId + "?instance=" + inst.id
  {
    var prefix := if inst.submitted then "/forms/view/" else "/forms/fill/";
    var r := prefix + inst.formId + "?instance=" + inst.id;
    LinkParts(prefix, inst.formId, inst.id);
    assert inst.formId + "?instance=" + inst.id == inst.formId + ['?'] + ("instance=" + inst.id);
    r
  }

  /** The status label, the button label and the link always agree. */
  lemma RowAgrees(inst: FormInstance)
    ensures StatusLabel(inst) == "Submitted" <==> ActionLabel(inst) == "View"
    ensures StatusLabel(inst) == "Submitted" <==> StartsWith(NavTarget(inst), "/forms/view/")
    ensures StatusLabel(inst) == "Draft" <==> StartsWith(NavTarget(inst), "/forms/fill/")
  {
  }

  /**
   * A link names its instance: when form ids contain no '?', two instances
   * with the same link have the same status, form id and id.
   */
  lemma NavTargetInjective(a: FormInstance, b: FormInstance)
    requires '?' !in a.formId && '?' !in b.formId
    requires NavTarget(a) == NavTarget(b)
    ensures a.submitted == b.submitted && a.formId == b.formId && a.id == b.id
  {
    var pa := if a.submitted then "/forms/view/" else "/forms/fill/";
    var pb := if b.submitted then "/forms/view/" else "/forms/fill/";
    LinkParts(pa, a.formId, a.id);
    LinkParts(pb, b.formId, b.id);
    assert pa == pb;
    assert pa[7] == NavTarget(a)[7];
    assert a.submitted == b.submitted;
    SeparatorSplitUnique(a.formId, "instance=" + a.id, b.formId, "instance=" + b.id, '?');
    InstanceQuery(a.id);
    InstanceQuery(b.id);
  }

  /** A link splits into its 12-character route prefix and the rest. */
  lemma LinkParts(prefix: string, formId: string, id: string)
    requires |prefix| == 12
    ensures (prefix + formId + "?instance=" + id)[..12] == prefix
    ensures (prefix + formId + "?instance=" + id)[12..] == formId + ['?'] + ("instance=" + id)
  {
    var r := prefix + formId + "?instance=" + id;
    assert r == prefix + (formId + ['?'] + ("instance=" + id));
  }

  lemma InstanceQuery(id: string)
    ensures ("instance=" + id)[9..] == id
  {
  }
}
