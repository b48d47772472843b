/** The request objects: record queries, script queries, portal requests and sort orders turn
    into ordered lists of URL query items; find requests and record edits turn into flat JSON
    objects. */
module RequestObjects {
  import opened Wrappers
  import opened Text
  import opened Rest
  import opened Json

  // ---------------------------------------------------------------------------------------
  // Query-item ranks. Every name a record query can emit falls into one group; the groups
  // appear in the order of their ranks.

  /** The group a query-item name belongs to: the six script keys (0-5), `layout.response` (6),
      `portal` (7), `_offset.<table>` (8), `_limit.<table>` (9), `_offset` (10), `_limit` (11),
      `_sort` (12); any other name ranks 13. */
  function Rank(name: string): nat {
    if "_offset." <= name then 8
    else if "_limit." <= name then 9
    else if name == "script" then 0
    else if name == "script.param" then 1
    else if name == "script.prerequest" then 2
    else if name == "script.prerequest.param" then 3
    else if name == "script.presort" then 4
    else if name == "script.presort.param" then 5
    else if name == "layout.response" then 6
    else if name == "portal" then 7
    else if name == "_offset" then 10
    else if name == "_limit" then 11
    else if name == "_sort" then 12
    else 13
  }

  /** The items are grouped in rank order. */
  ghost predicate Ranked(items: seq<QueryItem>) {
    forall i, j :: 0 <= i < j < |items| ==> Rank(items[i].name) <= Rank(items[j].name)
  }

  ghost predicate RanksWithin(items: seq<QueryItem>, lo: nat, hi: nat) {
    forall i :: 0 <= i < |items| ==> lo <= Rank(items[i].name) <= hi
  }

  /** The items whose names `rank` maps to `r`, in their order. */
  function Select(rank: string -> nat, items: seq<QueryItem>, r: nat): (group: seq<QueryItem>)
    ensures |group| <= |items|
    ensures forall i :: 0 <= i < |group| ==> rank(group[i].name) == r
  {
    if items == [] then []
    else (if rank(items[0].name) == r then [items[0]] else []) + Select(rank, items[1..], r)
  }

  lemma {:induction false} SelectAppend(rank: string -> nat, a: seq<QueryItem>, b: seq<QueryItem>, r: nat)
    ensures Select(rank, a + b, r) == Select(rank, a, r) + Select(rank, b, r)
  {
    if a == [] {
      assert a + b == b;
    } else {
      assert (a + b)[1..] == a[1..] + b;
      SelectAppend(rank, a[1..], b, r);
    }
  }

  lemma {:induction false} SelectUniform(rank: string -> nat, items: seq<QueryItem>, k: nat, r: nat)
    requires forall i :: 0 <= i < |items| ==> rank(items[i].name) == k
    ensures Select(rank, items, r) == if r == k then items else []
  {
    if items != [] {
      SelectUniform(rank, items[1..], k, r);
    }
  }

  /** The items of one rank, in their order. */
  function OfRank(items: seq<QueryItem>, r: nat): (group: seq<QueryItem>)
    ensures |group| <= |items|
    ensures forall i :: 0 <= i < |group| ==> Rank(group[i].name) == r
  {
    Select(Rank, items, r)
  }

  lemma OfRankAppend(a: seq<QueryItem>, b: seq<QueryItem>, r: nat)
    ensures OfRank(a + b, r) == OfRank(a, r) + OfRank(b, r)
  {
    SelectAppend(Rank, a, b, r);
  }

  lemma OfRankUniform(items: seq<QueryItem>, k: nat, r: nat)
    requires RanksWithin(items, k, k)
    ensures OfRank(items, r) == if r == k then items else []
  {
    SelectUniform(Rank, items, k, r);
  }

  lemma RankedAppend(a: seq<QueryItem>, b: seq<QueryItem>, lo: nat, mid: nat, hi: nat)
    requires lo <= mid <= hi
    requires Ranked(a) && RanksWithin(a, lo, mid)
    requires Ranked(b) && RanksWithin(b, mid, hi)
    ensures Ranked(a + b) && RanksWithin(a + b, lo, hi)
  {
    forall i, j | 0 <= i < j < |a + b|
      ensures Rank((a + b)[i].name) <= Rank((a + b)[j].name)
    {
      if j < |a| {
        assert (a + b)[i] == a[i] && (a + b)[j] == a[j];
      } else if i < |a| {
        assert (a + b)[i] == a[i] && (a + b)[j] == b[j - |a|];
        assert Rank(a[i].name) <= mid <= Rank(b[j - |a|].name);
      } else {
        assert (a + b)[i] == b[i - |a|] && (a + b)[j] == b[j - |a|];
      }
    }
    forall i | 0 <= i < |a + b|
      ensures lo <= Rank((a + b)[i].name) <= hi
    {
      if i < |a| {
        assert (a + b)[i] == a[i];
      } else {
        assert (a + b)[i] == b[i - |a|];
      }
    }
  }

  lemma PrefixRank(prefix: string, table: string)
    requires prefix == "_offset." || prefix == "_limit."
    ensures Rank(prefix + table) == if prefix == "_offset." then 8 else 9
  {
    assert prefix <= prefix + table;
    if prefix == "_limit." {
      assert (prefix + table)[1] == 'l';
    }
  }

  // ---------------------------------------------------------------------------------------
  // Script queries

  /** One query item for a present value, none for an absent one. */
  function Single(name: string, value: Option<string>): (items: seq<QueryItem>)
    ensures |items| == if value.Some? then 1 else 0
    ensures value.Some? ==> items == [QueryItem(name, value)]
  {
    if value.Some? then [QueryItem(name, value)] else []
  }

  /** Every case of a coding-key list mapped to its item, absent ones dropped. */
  function Present(keys: seq<string>, values: seq<Option<string>>): (items: seq<QueryItem>)
    requires |keys| == |values|
    decreases |keys|
  {
    if keys == [] then [] else Single(keys[0], values[0]) + Present(keys[1..], values[1..])
  }

  /** `compactMap` drops the absent values: each item is one of the keys, with a value. */
  lemma {:induction false} PresentSent(keys: seq<string>, values: seq<Option<string>>)
    requires |keys| == |values|
    ensures |Present(keys, values)| <= |keys|
    ensures forall i :: 0 <= i < |Present(keys, values)| ==>
      Present(keys, values)[i].value.Some? && Present(keys, values)[i].name in keys
    decreases |keys|
  {
    if keys != [] {
      PresentSent(keys[1..], values[1..]);
      var head: seq<QueryItem> := Single(keys[0], values[0]);
      var rest: seq<QueryItem> := Present(keys[1..], values[1..]);
      assert Present(keys, values) == head + rest;
      forall i | 0 <= i < |head + rest|
        ensures (head + rest)[i].value.Some? && (head + rest)[i].name in keys
      {
        if i >= |head| {
          assert (head + rest)[i] == rest[i - |head|];
          assert rest[i - |head|].name in keys[1..];
        }
      }
    }
  }

  /** The script keys in the order of their coding keys. */
  const ScriptKeys: seq<string> := ["script", "script.param", "script.prerequest",
    "script.prerequest.param", "script.presort", "script.presort.param"]

  datatype ScriptQuery = ScriptQuery(
    script: Option<string>,
    scriptParam: Option<string>,
    scriptPreSort: Option<string>,
    scriptPreSortParam: Option<string>,
    scriptPreRequest: Option<string>,
    scriptPreRequestParam: Option<string>)
  {
    /** The fields in the order of `ScriptKeys`. */
    function Values(): (vs: seq<Option<string>>)
      ensures |vs| == 6
    {
      [script, scriptParam, scriptPreRequest, scriptPreRequestParam, scriptPreSort,
       scriptPreSortParam]
    }

    /** The fields in the order `encode(to:)` writes them. */
    function Written(): (vs: seq<Option<string>>)
      ensures |vs| == 6
    {
      [script, scriptParam, scriptPreSort, scriptPreSortParam, scriptPreRequest, scriptPreRequestParam]
    }

    /** `ScriptQuery.queryParameters`: at most one valued item per script key. */
    function QueryParameters(): (items: seq<QueryItem>)
      ensures |items| <= 6
      ensures forall i :: 0 <= i < |items| ==> items[i].value.Some? && items[i].name in ScriptKeys
    {
      PresentSent(ScriptKeys, Values());
      Present(ScriptKeys, Values())
    }
  }

  const NoScript := ScriptQuery(None, None, None, None, None, None)

  /** Reads a script query back from query items: each field is the value of the item of its
      key's rank. */
  function ScriptQueryOfItems(items: seq<QueryItem>): (q: ScriptQuery) {
    ScriptQuery(FieldOf(items, 0), FieldOf(items, 1), FieldOf(items, 4), FieldOf(items, 5),
                FieldOf(items, 2), FieldOf(items, 3))
  }

  function FieldOf(items: seq<QueryItem>, r: nat): Option<string> {
    var group := OfRank(items, r);
    if group == [] then None else group[0].value
  }

  /** A name that does not start with `_` is not a portal offset or limit key. */
  lemma NotPortalKey(name: string)
    requires |name| > 0 && name[0] != '_'
    ensures !("_offset." <= name) && !("_limit." <= name)
  {
  }

  lemma ScriptKeyRanks()
    ensures forall k :: 0 <= k < 6 ==> Rank(ScriptKeys[k]) == k
  {
    forall k | 0 <= k < 6
      ensures Rank(ScriptKeys[k]) == k
    {
      assert ScriptKeys[k][0] == 's';
      NotPortalKey(ScriptKeys[k]);
    }
  }

  lemma LiteralRanks()
    ensures Rank("layout.response") == 6 && Rank("portal") == 7
    ensures Rank("_offset") == 10 && Rank("_limit") == 11 && Rank("_sort") == 12
  {
    NotPortalKey("layout.response");
    NotPortalKey("portal");
    assert !("_limit." <= "_offset") by { assert "_offset"[1] == 'o'; }
    assert !("_limit." <= "_sort") by { assert |"_sort"| < 7; }
  }

  /** With keys of strictly increasing ranks from `base`, the present values come out ranked. */
  lemma {:induction false} PresentRanked(keys: seq<string>, values: seq<Option<string>>, base: nat, top: nat)
    requires |keys| == |values| && base + |keys| <= top + 1
    requires forall k :: 0 <= k < |keys| ==> Rank(keys[k]) == base + k
    ensures Ranked(Present(keys, values))
    ensures RanksWithin(Present(keys, values), base, top)
    decreases |keys|
  {
    if keys != [] {
      var head := Single(keys[0], values[0]);
      var tail := Present(keys[1..], values[1..]);
      PresentRanked(keys[1..], values[1..], base + 1, top);
      assert RanksWithin(head, base, base);
      assert RanksWithin(tail, base, top);
      RankedAppend(head, tail, base, base, top);
    }
  }

  /** ... and each rank holds the item of the key of that rank, if its value is present. */
  lemma {:induction false} PresentOfRank(keys: seq<string>, values: seq<Option<string>>, base: nat, r: nat)
    requires |keys| == |values|
    requires forall k :: 0 <= k < |keys| ==> Rank(keys[k]) == base + k
    ensures OfRank(Present(keys, values), r)
         == if base <= r < base + |keys| then Single(keys[r - base], values[r - base]) else []
    decreases |keys|
  {
    if keys != [] {
      var head := Single(keys[0], values[0]);
      var tail := Present(keys[1..], values[1..]);
      assert Present(keys, values) == head + tail;
      forall k | 0 <= k < |keys[1..]|
        ensures Rank(keys[1..][k]) == base + 1 + k
      {
        assert keys[1..][k] == keys[k + 1];
      }
      PresentOfRank(keys[1..], values[1..], base + 1, r);
      OfRankAppend(head, tail, r);
      assert RanksWithin(head, base, base) by { assert Rank(keys[0]) == base; }
      OfRankUniform(head, base, r);
      if base < r < base + |keys| {
        assert keys[1..][r - (base + 1)] == keys[r - base];
        assert values[1..][r - (base + 1)] == values[r - base];
      }
    }
  }

  /** `ScriptQuery.queryParameters` emits its items in the fixed key order `script`,
      `script.param`, `script.prerequest`, `script.prerequest.param`, `script.presort`,
      `script.presort.param`. */
  lemma ScriptQueryRanked(q: ScriptQuery)
    ensures Ranked(q.QueryParameters()) && RanksWithin(q.QueryParameters(), 0, 5)
  {
    ScriptKeyRanks();
    PresentRanked(ScriptKeys, q.Values(), 0, 5);
  }

  /** One item per present field under that field's key, none for an absent field. */
  lemma ScriptQueryOfRank(q: ScriptQuery, r: nat)
    ensures OfRank(q.QueryParameters(), r)
         == if r < 6 then Single(ScriptKeys[r], q.Values()[r]) else []
  {
    ScriptKeyRanks();
    PresentOfRank(ScriptKeys, q.Values(), 0, r);
  }

  /** The script query reads back from its own items. */
  lemma ScriptQueryRoundTrip(q: ScriptQuery)
    ensures ScriptQueryOfItems(q.QueryParameters()) == q
  {
    var items := q.QueryParameters();
    forall r: nat | r < 6
      ensures FieldOf(items, r) == q.Values()[r]
    {
      ScriptQueryOfRank(q, r);
      FieldOfSingle(items, r, ScriptKeys[r], q.Values()[r]);
    }
    assert FieldOf(items, 0) == q.script;
    assert FieldOf(items, 1) == q.scriptParam;
    assert FieldOf(items, 2) == q.scriptPreRequest;
    assert FieldOf(items, 3) == q.scriptPreRequestParam;
    assert FieldOf(items, 4) == q.scriptPreSort;
    assert FieldOf(items, 5) == q.scriptPreSortParam;
  }

  lemma FieldOfSingle(items: seq<QueryItem>, r: nat, name: string, v: Option<string>)
    requires OfRank(items, r) == Single(name, v)
    ensures FieldOf(items, r) == v
  {
  }

  // ---------------------------------------------------------------------------------------
  // Sort orders and portals

  datatype SortOrder = Ascend | Descend
  {
    /** The case name, which is also the raw value the sort object encodes. */
    function Name(): (s: string)
      ensures s == "ascend" || s == "descend"
      ensures (s == "ascend") <==> Ascend?
    {
      match this
      case Ascend => "ascend"
      case Descend => "descend"
    }
  }

  /** `SortQuery(fieldName:sortOrder:)`; the order defaults to ascending. */
  datatype SortQuery = SortQuery(fieldName: string, sortOrder: SortOrder)

  function Ascending(fieldName: string): (s: SortQuery)
    ensures s.fieldName == fieldName && s.sortOrder == Ascend
  {
    SortQuery(fieldName, Ascend)
  }

  /** One entry of the `_sort` literal, without its braces. */
  function SortEntry(s: SortQuery): string {
    "\"fieldName\":\"" + s.fieldName + "\",\"sortOrder\":\"" + s.sortOrder.Name() + "\""
  }

  /** The `_sort` value: the entries between `[{` and `}]`, separated by `},{`. */
  function SortValue(sorts: seq<SortQuery>): (v: string)
    ensures |v| >= 4 && v[..2] == "[{" && v[|v| - 2..] == "}]"
    ensures |sorts| == 0 ==> v == "[{}]"
    ensures |sorts| == 1 ==> v == "[{" + SortEntry(sorts[0]) + "}]"
  {
    "[{" + Join(SortEntries(sorts), "},{") + "}]"
  }

  /** The entries of the sorts, in order. */
  function SortEntries(sorts: seq<SortQuery>): (entries: seq<string>)
    ensures |entries| == |sorts|
    ensures forall i :: 0 <= i < |sorts| ==> entries[i] == SortEntry(sorts[i])
  {
    seq(|sorts|, i requires 0 <= i < |sorts| => SortEntry(sorts[i]))
  }

  /** A separator and an element inserted before a two-character closing bracket. */
  lemma InsertBeforeClose(open: string, inner: string, sep: string, e: string, close: string)
    requires |close| == 2
    ensures var v := open + inner + close; open + (inner + sep + e) + close == v[..|v| - 2] + sep + e + close
  {
    var v := open + inner + close;
    assert v[..|v| - 2] == open + inner;
  }

  /** A further sort adds `},{` and its entry before the closing `}]`. */
  lemma SortValueAppend(sorts: seq<SortQuery>, t: SortQuery)
    requires |sorts| > 0
    ensures var v := SortValue(sorts);
      SortValue(sorts + [t]) == v[..|v| - 2] + "},{" + SortEntry(t) + "}]"
  {
    var entries := SortEntries(sorts);
    assert SortEntries(sorts + [t]) == entries + [SortEntry(t)];
    JoinAppend(entries, SortEntry(t), "},{");
    InsertBeforeClose("[{", Join(entries, "},{"), "},{", SortEntry(t), "}]");
  }

  datatype PortalRequest = PortalRequest(name: string, limit: Option<string>, offset: Option<string>)
  {
    /** `queryParameterLimit`: `_limit.<name>` carrying the limit, if there is one. */
    function QueryParameterLimit(): (item: Option<QueryItem>)
      ensures item.Some? <==> limit.Some?
      ensures item.Some? ==> item.value == QueryItem("_limit." + name, limit)
    {
      if limit.Some? then Some(QueryItem("_limit." + name, limit)) else None
    }

    /** `queryParameterOffset`: `_offset.<name>` carrying the offset, if there is one. */
    function QueryParameterOffset(): (item: Option<QueryItem>)
      ensures item.Some? <==> offset.Some?
      ensures item.Some? ==> item.value == QueryItem("_offset." + name, offset)
    {
      if offset.Some? then Some(QueryItem("_offset." + name, offset)) else None
    }
  }

  /** The decimal text of a present number, nothing for an absent one. */
  function DecimalIfPresent(n: Option<Int64>): (s: Option<string>)
    ensures s.Some? <==> n.Some?
    ensures n.Some? ==> ParseInt(s.value) == n
  {
    if n.Some? then ParseDecimal(n.value); Some(Decimal(n.value)) else None
  }

  /** `PortalRequest(name:limit:offset:)` with numbers: present values are stored as their
      decimal text, which parses back to the number. */
  function PortalRequestOfInts(name: string, limit: Option<Int64>, offset: Option<Int64>): (p: PortalRequest)
    ensures p.name == name
    ensures p.limit.Some? <==> limit.Some?
    ensures p.offset.Some? <==> offset.Some?
    ensures limit.Some? ==> ParseInt(p.limit.value) == limit
    ensures offset.Some? ==> ParseInt(p.offset.value) == offset
  {
    PortalRequest(name, DecimalIfPresent(limit), DecimalIfPresent(offset))
  }

  function Compact(item: Option<QueryItem>): seq<QueryItem> {
    if item.Some? then [item.value] else []
  }

  /** The `_offset.<table>` items of the portals that have an offset, in portal order. */
  function PortalOffsets(portals: seq<PortalRequest>): (items: seq<QueryItem>)
    ensures RanksWithin(items, 8, 8)
  {
    if portals == [] then []
    else
      PrefixRank("_offset.", portals[0].name);
      Compact(portals[0].QueryParameterOffset()) + PortalOffsets(portals[1..])
  }

  /** The `_limit.<table>` items of the portals that have a limit, in portal order. */
  function PortalLimits(portals: seq<PortalRequest>): (items: seq<QueryItem>)
    ensures RanksWithin(items, 9, 9)
  {
    if portals == [] then []
    else
      PrefixRank("_limit.", portals[0].name);
      Compact(portals[0].QueryParameterLimit()) + PortalLimits(portals[1..])
  }

  function PortalNames(portals: seq<PortalRequest>): (names: seq<string>)
    ensures |names| == |portals|
    ensures forall i :: 0 <= i < |portals| ==> names[i] == portals[i].name
  {
    seq(|portals|, i requires 0 <= i < |portals| => portals[i].name)
  }

  /** The `portal` item's value: the names, quoted, separated by commas, in brackets; an
      empty list still yields one empty quoted name. */
  function PortalList(portals: seq<PortalRequest>): (v: string)
    ensures |portals| == 0 ==> v == "[\"\"]"
    ensures |portals| == 1 ==> v == "[\"" + portals[0].name + "\"]"
  {
    "[\"" + Join(PortalNames(portals), "\",\"") + "\"]"
  }

  /** A further portal adds `","` and its name before the closing `"]`. */
  lemma PortalListAppend(portals: seq<PortalRequest>, p: PortalRequest)
    requires |portals| > 0
    ensures var v := PortalList(portals);
      PortalList(portals + [p]) == v[..|v| - 2] + "\",\"" + p.name + "\"]"
  {
    var names := PortalNames(portals);
    assert PortalNames(portals + [p]) == names + [p.name];
    JoinAppend(names, p.name, "\",\"");
    InsertBeforeClose("[\"", Join(names, "\",\""), "\",\"", p.name, "\"]");
  }

  /** A further portal adds its offset item, if any, at the end. */
  lemma {:induction false} PortalOffsetsAppend(portals: seq<PortalRequest>, p: PortalRequest)
    ensures PortalOffsets(portals + [p]) == PortalOffsets(portals) + Compact(p.QueryParameterOffset())
    decreases |portals|
  {
    if portals == [] {
      assert [p][1..] == [];
    } else {
      assert (portals + [p])[1..] == portals[1..] + [p];
      PortalOffsetsAppend(portals[1..], p);
    }
  }

  /** A further portal adds its limit item, if any, at the end. */
  lemma {:induction false} PortalLimitsAppend(portals: seq<PortalRequest>, p: PortalRequest)
    ensures PortalLimits(portals + [p]) == PortalLimits(portals) + Compact(p.QueryParameterLimit())
    decreases |portals|
  {
    if portals == [] {
      assert [p][1..] == [];
    } else {
      assert (portals + [p])[1..] == portals[1..] + [p];
      PortalLimitsAppend(portals[1..], p);
    }
  }

  /** The offset items are exactly `_offset.<name>` with the offset, for each portal that
      has one. */
  lemma {:induction false} PortalOffsetsMembers(portals: seq<PortalRequest>, item: QueryItem)
    ensures item in PortalOffsets(portals) <==>
      exists i :: 0 <= i < |portals| && portals[i].offset.Some?
                  && item == QueryItem("_offset." + portals[i].name, portals[i].offset)
    decreases |portals|
  {
    if portals != [] {
      var rest := portals[1..];
      PortalOffsetsMembers(rest, item);
      if item in PortalOffsets(portals) && item !in Compact(portals[0].QueryParameterOffset()) {
        var j :| 0 <= j < |rest| && rest[j].offset.Some?
                 && item == QueryItem("_offset." + rest[j].name, rest[j].offset);
        assert portals[j + 1] == rest[j];
      }
      if exists i :: 0 <= i < |portals| && portals[i].offset.Some?
                     && item == QueryItem("_offset." + portals[i].name, portals[i].offset) {
        var i :| 0 <= i < |portals| && portals[i].offset.Some?
                 && item == QueryItem("_offset." + portals[i].name, portals[i].offset);
        if i > 0 {
          assert rest[i - 1] == portals[i];
        }
      }
    }
  }

  /** The limit items are exactly `_limit.<name>` with the limit, for each portal that has
      one. */
  lemma {:induction false} PortalLimitsMembers(portals: seq<PortalRequest>, item: QueryItem)
    ensures item in PortalLimits(portals) <==>
      exists i :: 0 <= i < |portals| && portals[i].limit.Some?
                  && item == QueryItem("_limit." + portals[i].name, portals[i].limit)
    decreases |portals|
  {
    if portals != [] {
      var rest := portals[1..];
      PortalLimitsMembers(rest, item);
      if item in PortalLimits(portals) && item !in Compact(portals[0].QueryParameterLimit()) {
        var j :| 0 <= j < |rest| && rest[j].limit.Some?
                 && item == QueryItem("_limit." + rest[j].name, rest[j].limit);
        assert portals[j + 1] == rest[j];
      }
      if exists i :: 0 <= i < |portals| && portals[i].limit.Some?
                     && item == QueryItem("_limit." + portals[i].name, portals[i].limit) {
        var i :| 0 <= i < |portals| && portals[i].limit.Some?
                 && item == QueryItem("_limit." + portals[i].name, portals[i].limit);
        if i > 0 {
          assert rest[i - 1] == portals[i];
        }
      }
    }
  }

  /** The portal group: the `portal` item, then the offsets, then the limits. */
  function PortalGroup(portals: Option<seq<PortalRequest>>): (g: seq<QueryItem>)
    ensures g == [] <==> portals.None?
  {
    if portals.None? then []
    else [QueryItem("portal", Some(PortalList(portals.value)))]
         + PortalOffsets(portals.value) + PortalLimits(portals.value)
  }

  // ---------------------------------------------------------------------------------------
  // Record queries

  datatype RecordQuery = RecordQuery(
    script: Option<ScriptQuery>,
    layoutResponse: Option<string>,
    portal: Option<seq<PortalRequest>>,
    offset: Option<string>,
    limit: Option<string>,
    sortOrder: Option<seq<SortQuery>>)
  {
    /** `RecordQuery.queryParameters`: the groups in the order of the coding keys; nothing
        is sent exactly when nothing is set. */
    function QueryParameters(): (items: seq<QueryItem>)
      ensures items == [] <==> && ScriptGroup(script) == [] && layoutResponse.None? && portal.None?
                               && offset.None? && limit.None? && sortOrder.None?
    {
      ScriptGroup(script)
      + Single("layout.response", layoutResponse)
      + PortalGroup(portal)
      + Single("_offset", offset)
      + Single("_limit", limit)
      + Single("_sort", if sortOrder.Some? then Some(SortValue(sortOrder.value)) else None)
    }
  }

  function ScriptGroup(script: Option<ScriptQuery>): seq<QueryItem> {
    if script.Some? then script.value.QueryParameters() else []
  }

  /** Every item carries a value. */
  predicate Valued(items: seq<QueryItem>) {
    forall i :: 0 <= i < |items| ==> items[i].value.Some?
  }

  lemma ValuedConcat(a: seq<QueryItem>, b: seq<QueryItem>)
    requires Valued(a) && Valued(b)
    ensures Valued(a + b)
  {
    forall i | 0 <= i < |a + b|
      ensures (a + b)[i].value.Some?
    {
      if i >= |a| {
        assert (a + b)[i] == b[i - |a|];
      }
    }
  }

  lemma {:induction false} PortalOffsetsValued(portals: seq<PortalRequest>)
    ensures Valued(PortalOffsets(portals))
    decreases |portals|
  {
    if portals != [] {
      PortalOffsetsValued(portals[1..]);
      ValuedConcat(Compact(portals[0].QueryParameterOffset()), PortalOffsets(portals[1..]));
    }
  }

  lemma {:induction false} PortalLimitsValued(portals: seq<PortalRequest>)
    ensures Valued(PortalLimits(portals))
    decreases |portals|
  {
    if portals != [] {
      PortalLimitsValued(portals[1..]);
      ValuedConcat(Compact(portals[0].QueryParameterLimit()), PortalLimits(portals[1..]));
    }
  }

  /** `compactMap` leaves no record query item without a value. */
  lemma RecordQueryValued(q: RecordQuery)
    ensures Valued(q.QueryParameters())
  {
    var script := ScriptGroup(q.script);
    var layout := Single("layout.response", q.layoutResponse);
    var portal := PortalGroup(q.portal);
    var offset := Single("_offset", q.offset);
    var limit := Single("_limit", q.limit);
    var sort := Single("_sort", if q.sortOrder.Some? then Some(SortValue(q.sortOrder.value)) else None);
    if q.portal.Some? {
      PortalOffsetsValued(q.portal.value);
      PortalLimitsValued(q.portal.value);
      var list := [QueryItem("portal", Some(PortalList(q.portal.value)))];
      ValuedConcat(list, PortalOffsets(q.portal.value));
      ValuedConcat(list + PortalOffsets(q.portal.value), PortalLimits(q.portal.value));
    }
    ValuedConcat(script, layout);
    ValuedConcat(script + layout, portal);
    ValuedConcat(script + layout + portal, offset);
    ValuedConcat(script + layout + portal + offset, limit);
    ValuedConcat(script + layout + portal + offset + limit, sort);
  }

  /** `RecordQuery(...)` with a numeric offset and limit, stored as decimal text. */
  function RecordQueryOfInts(script: Option<ScriptQuery>, layoutResponse: Option<string>,
                             portal: Option<seq<PortalRequest>>, offset: Option<Int64>,
                             limit: Option<Int64>, sortOrder: Option<seq<SortQuery>>): (q: RecordQuery)
    ensures q.script == script && q.layoutResponse == layoutResponse && q.portal == portal
    ensures q.sortOrder == sortOrder
    ensures q.offset.Some? <==> offset.Some?
    ensures q.limit.Some? <==> limit.Some?
    ensures offset.Some? ==> ParseInt(q.offset.value) == offset
    ensures limit.Some? ==> ParseInt(q.limit.value) == limit
  {
    RecordQuery(script, layoutResponse, portal, DecimalIfPresent(offset), DecimalIfPresent(limit),
                sortOrder)
  }

  /** The items a record query emits for each rank, stated group by group: the script
      items, `layout.response`, the portal group (the `portal` list, then the portal offsets,
      then the portal limits), `_offset`, `_limit` and `_sort`. An absent field has no items. */
  function Group(q: RecordQuery, r: nat): seq<QueryItem> {
    if r < 6 then (if q.script.Some? then Single(ScriptKeys[r], q.script.value.Values()[r]) else [])
    else if r == 6 then Single("layout.response", q.layoutResponse)
    else if r == 7 then
      (if q.portal.Some? then [QueryItem("portal", Some(PortalList(q.portal.value)))] else [])
    else if r == 8 then (if q.portal.Some? then PortalOffsets(q.portal.value) else [])
    else if r == 9 then (if q.portal.Some? then PortalLimits(q.portal.value) else [])
    else if r == 10 then Single("_offset", q.offset)
    else if r == 11 then Single("_limit", q.limit)
    else if r == 12 then
      (if q.sortOrder.Some? then [QueryItem("_sort", Some(SortValue(q.sortOrder.value)))] else [])
    else []
  }

  /** `RecordQuery.queryParameters` emits the groups in rank order. */
  lemma RecordQueryRanked(q: RecordQuery)
    ensures Ranked(q.QueryParameters()) && RanksWithin(q.QueryParameters(), 0, 12)
  {
    var s := ScriptGroup(q.script);
    if q.script.Some? {
      ScriptQueryRanked(q.script.value);
    }
    LiteralRanks();
    PortalGroupRanked(q.portal);
    GroupsRanked(s, Single("layout.response", q.layoutResponse), PortalGroup(q.portal),
      Single("_offset", q.offset), Single("_limit", q.limit),
      Single("_sort", if q.sortOrder.Some? then Some(SortValue(q.sortOrder.value)) else None));
  }

  lemma GroupsRanked(s: seq<QueryItem>, l: seq<QueryItem>, p: seq<QueryItem>, o: seq<QueryItem>,
                     li: seq<QueryItem>, so: seq<QueryItem>)
    requires Ranked(s) && RanksWithin(s, 0, 5)
    requires RanksWithin(l, 6, 6)
    requires Ranked(p) && RanksWithin(p, 7, 9)
    requires RanksWithin(o, 10, 10) && RanksWithin(li, 11, 11) && RanksWithin(so, 12, 12)
    ensures Ranked(s + l + p + o + li + so) && RanksWithin(s + l + p + o + li + so, 0, 12)
  {
    UniformRanked(l, 6);
    UniformRanked(o, 10);
    UniformRanked(li, 11);
    UniformRanked(so, 12);
    RankedAppend(s, l, 0, 6, 6);
    RankedAppend(s + l, p, 0, 7, 9);
    RankedAppend(s + l + p, o, 0, 10, 10);
    RankedAppend(s + l + p + o, li, 0, 11, 11);
    RankedAppend(s + l + p + o + li, so, 0, 12, 12);
  }

  lemma PortalGroupRanked(portal: Option<seq<PortalRequest>>)
    ensures Ranked(PortalGroup(portal)) && RanksWithin(PortalGroup(portal), 7, 9)
  {
    if portal.Some? {
      var ps := portal.value;
      var head := [QueryItem("portal", Some(PortalList(ps)))];
      LiteralRanks();
      assert RanksWithin(head, 7, 7);
      UniformRanked(PortalOffsets(ps), 8);
      UniformRanked(PortalLimits(ps), 9);
      RankedAppend(head, PortalOffsets(ps), 7, 8, 8);
      RankedAppend(head + PortalOffsets(ps), PortalLimits(ps), 7, 9, 9);
    }
  }

  /** The items of each rank are that rank's group. */
  lemma RecordQueryOfRank(q: RecordQuery, r: nat)
    ensures OfRank(q.QueryParameters(), r) == Group(q, r)
  {
    var l := Single("layout.response", q.layoutResponse);
    var o := Single("_offset", q.offset);
    var li := Single("_limit", q.limit);
    var so := Single("_sort", if q.sortOrder.Some? then Some(SortValue(q.sortOrder.value)) else None);
    SplitByGroup(q, r);
    ScriptGroupOfRank(q, r);
    PortalGroupOfRank(q.portal, r);
    SingleOfRank("layout.response", q.layoutResponse, r);
    SingleOfRank("_offset", q.offset, r);
    SingleOfRank("_limit", q.limit, r);
    SingleOfRank("_sort", if q.sortOrder.Some? then Some(SortValue(q.sortOrder.value)) else None, r);
    LiteralRanks();
    AssembleGroup(q, r, OfRank(ScriptGroup(q.script), r), OfRank(l, r), OfRank(PortalGroup(q.portal), r),
      OfRank(o, r), OfRank(li, r), OfRank(so, r));
  }

  lemma SingleOfRank(name: string, v: Option<string>, r: nat)
    ensures OfRank(Single(name, v), r) == if r == Rank(name) then Single(name, v) else []
  {
  }

  lemma SplitByGroup(q: RecordQuery, r: nat)
    ensures OfRank(q.QueryParameters(), r)
         == OfRank(ScriptGroup(q.script), r) + OfRank(Single("layout.response", q.layoutResponse), r)
            + OfRank(PortalGroup(q.portal), r) + OfRank(Single("_offset", q.offset), r)
            + OfRank(Single("_limit", q.limit), r)
            + OfRank(Single("_sort", if q.sortOrder.Some? then Some(SortValue(q.sortOrder.value)) else None), r)
  {
    var s := ScriptGroup(q.script);
    var l := Single("layout.response", q.layoutResponse);
    var p := PortalGroup(q.portal);
    var o := Single("_offset", q.offset);
    var li := Single("_limit", q.limit);
    var so := Single("_sort", if q.sortOrder.Some? then Some(SortValue(q.sortOrder.value)) else None);
    assert q.QueryParameters() == s + l + p + o + li + so;
    GroupsOfRank(s, l, p, o, li, so, r);
  }

  lemma AssembleGroup(q: RecordQuery, r: nat, s: seq<QueryItem>, l: seq<QueryItem>, p: seq<QueryItem>,
                      o: seq<QueryItem>, li: seq<QueryItem>, so: seq<QueryItem>)
    requires s == (if r < 6 then Group(q, r) else [])
    requires l == (if r == 6 then Single("layout.response", q.layoutResponse) else [])
    requires p == (if q.portal.None? || r < 7 || r > 9 then []
                   else if r == 7 then [QueryItem("portal", Some(PortalList(q.portal.value)))]
                   else if r == 8 then PortalOffsets(q.portal.value)
                   else PortalLimits(q.portal.value))
    requires o == (if r == 10 then Single("_offset", q.offset) else [])
    requires li == (if r == 11 then Single("_limit", q.limit) else [])
    requires so == (if r == 12 then Single("_sort", if q.sortOrder.Some? then Some(SortValue(q.sortOrder.value)) else None)
                    else [])
    ensures s + l + p + o + li + so == Group(q, r)
  {
  }

  lemma ScriptGroupOfRank(q: RecordQuery, r: nat)
    ensures OfRank(ScriptGroup(q.script), r) == if r < 6 then Group(q, r) else []
  {
    if q.script.Some? {
      ScriptQueryOfRank(q.script.value, r);
    }
  }

  lemma GroupsOfRank(s: seq<QueryItem>, l: seq<QueryItem>, p: seq<QueryItem>, o: seq<QueryItem>,
                     li: seq<QueryItem>, so: seq<QueryItem>, r: nat)
    ensures OfRank(s + l + p + o + li + so, r)
         == OfRank(s, r) + OfRank(l, r) + OfRank(p, r) + OfRank(o, r) + OfRank(li, r) + OfRank(so, r)
  {
    OfRankAppend(s + l + p + o + li, so, r);
    OfRankAppend(s + l + p + o, li, r);
    OfRankAppend(s + l + p, o, r);
    OfRankAppend(s + l, p, r);
    OfRankAppend(s, l, r);
  }

  lemma PortalGroupOfRank(portal: Option<seq<PortalRequest>>, r: nat)
    ensures OfRank(PortalGroup(portal), r)
         == if portal.None? || r < 7 || r > 9 then []
            else if r == 7 then [QueryItem("portal", Some(PortalList(portal.value)))]
            else if r == 8 then PortalOffsets(portal.value)
            else PortalLimits(portal.value)
  {
    if portal.Some? {
      var ps := portal.value;
      var head := [QueryItem("portal", Some(PortalList(ps)))];
      LiteralRanks();
      OfRankAppend(head + PortalOffsets(ps), PortalLimits(ps), r);
      OfRankAppend(head, PortalOffsets(ps), r);
      OfRankUniform(head, 7, r);
      OfRankUniform(PortalOffsets(ps), 8, r);
      OfRankUniform(PortalLimits(ps), 9, r);
    }
  }

  /** The script fields of a record query read back from its items. */
  lemma RecordQueryScript(q: RecordQuery)
    ensures ScriptQueryOfItems(q.QueryParameters()) == q.script.GetOr(NoScript)
  {
    RecordQueryOfRank(q, 0);
    RecordQueryOfRank(q, 1);
    RecordQueryOfRank(q, 2);
    RecordQueryOfRank(q, 3);
    RecordQueryOfRank(q, 4);
    RecordQueryOfRank(q, 5);
  }

  lemma UniformRanked(items: seq<QueryItem>, k: nat)
    requires RanksWithin(items, k, k)
    ensures Ranked(items)
  {
  }

  // ---------------------------------------------------------------------------------------
  // Request bodies. Every container the encoders open writes into the same top-level object,
  // so each body is one map; a later write to a key replaces an earlier one.

  /** A sort order as a JSON object. */
  function SortObject(s: SortQuery): (v: Value)
    ensures v.JObj? && v.fields.Keys == {"fieldName", "sortOrder"}
    ensures v.fields["fieldName"] == JStr(s.fieldName) && v.fields["sortOrder"] == JStr(s.sortOrder.Name())
  {
    JObj(map["fieldName" := JStr(s.fieldName), "sortOrder" := JStr(s.sortOrder.Name())])
  }

  function SortArray(sorts: seq<SortQuery>): (v: Value)
    ensures v.JArr? && |v.items| == |sorts|
    ensures forall i :: 0 <= i < |sorts| ==> v.items[i] == SortObject(sorts[i])
  {
    JArr(seq(|sorts|, i requires 0 <= i < |sorts| => SortObject(sorts[i])))
  }

  /** One find request: a field-to-criterion dictionary as a JSON object of strings. */
  function RequestObject(fields: map<string, string>): (v: Value)
    ensures v.JObj? && v.fields.Keys == fields.Keys
    ensures forall k :: k in fields ==> v.fields[k] == JStr(fields[k])
  {
    JObj(map k | k in fields :: JStr(fields[k]))
  }

  function QueryArray(query: seq<map<string, string>>): (v: Value)
    ensures v.JArr? && |v.items| == |query|
    ensures forall i :: 0 <= i < |query| ==> v.items[i] == RequestObject(query[i])
  {
    JArr(seq(|query|, i requires 0 <= i < |query| => RequestObject(query[i])))
  }

  function NameArray(portals: seq<PortalRequest>): (v: Value)
    ensures v.JArr? && |v.items| == |portals|
    ensures forall i :: 0 <= i < |portals| ==> v.items[i] == JStr(portals[i].name)
  {
    JArr(seq(|portals|, i requires 0 <= i < |portals| => JStr(portals[i].name)))
  }

  /** `encodeIfPresent`: a present value is written under `key`, an absent one writes nothing. */
  function Put(m: map<string, Value>, key: string, v: Option<Value>): map<string, Value> {
    if v.Some? then m[key := v.value] else m
  }

  /** `encodeIfPresent` adds the key exactly when the value is present, with that value, and
      keeps every other key as it was. */
  lemma PutLookup(m: map<string, Value>, key: string, v: Option<Value>, other: string)
    requires other != key
    ensures key in Put(m, key, v) <==> v.Some? || key in m
    ensures v.Some? ==> Put(m, key, v)[key] == v.value
    ensures other in Put(m, key, v) <==> other in m
    ensures other in m ==> Put(m, key, v)[other] == m[other]
  {
  }

  function StrValue(s: Option<string>): (v: Option<Value>)
    ensures v.Some? <==> s.Some?
    ensures s.Some? ==> v.value == JStr(s.value)
  {
    if s.Some? then Some(JStr(s.value)) else None
  }

  function NumValue(n: Option<Int64>): (v: Option<Value>)
    ensures v.Some? <==> n.Some?
    ensures n.Some? ==> v.value == JNum(n.value)
  {
    if n.Some? then Some(JNum(n.value)) else None
  }

  /** Optional strings written one after another with `encodeIfPresent`. */
  function PutAll(m: map<string, Value>, keys: seq<string>, vals: seq<Option<string>>): map<string, Value>
    requires |keys| == |vals|
    decreases |keys|
  {
    if keys == [] then m else PutAll(Put(m, keys[0], StrValue(vals[0])), keys[1..], vals[1..])
  }

  /** Six writes in a row are `PutAll` over their keys. */
  lemma PutAllSix(m: map<string, Value>, keys: seq<string>, vals: seq<Option<string>>)
    requires |keys| == 6 && |vals| == 6
    ensures PutAll(m, keys, vals)
         == Put(Put(Put(Put(Put(Put(m, keys[0], StrValue(vals[0])), keys[1], StrValue(vals[1])),
              keys[2], StrValue(vals[2])), keys[3], StrValue(vals[3])), keys[4], StrValue(vals[4])),
              keys[5], StrValue(vals[5]))
  {
    var m1 := Put(m, keys[0], StrValue(vals[0]));
    var m2 := Put(m1, keys[1], StrValue(vals[1]));
    var m3 := Put(m2, keys[2], StrValue(vals[2]));
    var m4 := Put(m3, keys[3], StrValue(vals[3]));
    var m5 := Put(m4, keys[4], StrValue(vals[4]));
    var m6 := Put(m5, keys[5], StrValue(vals[5]));
    assert PutAll(m, keys, vals) == PutAll(m1, keys[1..], vals[1..]);
    assert PutAll(m1, keys[1..], vals[1..]) == PutAll(m2, keys[2..], vals[2..]);
    assert PutAll(m2, keys[2..], vals[2..]) == PutAll(m3, keys[3..], vals[3..]);
    assert PutAll(m3, keys[3..], vals[3..]) == PutAll(m4, keys[4..], vals[4..]);
    assert PutAll(m4, keys[4..], vals[4..]) == PutAll(m5, keys[5..], vals[5..]);
    assert PutAll(m5, keys[5..], vals[5..]) == PutAll(m6, keys[6..], vals[6..]);
  }

  /** Writing keys other than `key` leaves it as it was. */
  lemma {:induction false} PutAllKeeps(m: map<string, Value>, keys: seq<string>, vals: seq<Option<string>>,
                                       key: string)
    requires |keys| == |vals|
    requires forall j :: 0 <= j < |keys| ==> keys[j] != key
    ensures key in PutAll(m, keys, vals) <==> key in m
    ensures key in m ==> PutAll(m, keys, vals)[key] == m[key]
    decreases |keys|
  {
    if keys != [] {
      assert keys[0] != key;
      assert forall j :: 0 <= j < |keys[1..]| ==> keys[1..][j] == keys[j + 1];
      PutAllKeeps(Put(m, keys[0], StrValue(vals[0])), keys[1..], vals[1..], key);
    }
  }

  /** A key written once holds its value when that is present, and is otherwise as it was. */
  lemma {:induction false} PutAllAt(m: map<string, Value>, keys: seq<string>, vals: seq<Option<string>>,
                                    i: nat)
    requires |keys| == |vals| && i < |keys|
    requires forall j :: 0 <= j < |keys| && j != i ==> keys[j] != keys[i]
    ensures keys[i] in PutAll(m, keys, vals) <==> vals[i].Some? || keys[i] in m
    ensures vals[i].Some? ==> PutAll(m, keys, vals)[keys[i]] == JStr(vals[i].value)
    ensures vals[i].None? && keys[i] in m ==> PutAll(m, keys, vals)[keys[i]] == m[keys[i]]
    decreases |keys|
  {
    var m1 := Put(m, keys[0], StrValue(vals[0]));
    assert forall j :: 0 <= j < |keys[1..]| ==> keys[1..][j] == keys[j + 1];
    if i == 0 {
      PutAllKeeps(m1, keys[1..], vals[1..], keys[0]);
    } else {
      assert keys[0] != keys[i];
      assert keys[1..][i - 1] == keys[i] && vals[1..][i - 1] == vals[i];
      PutAllAt(m1, keys[1..], vals[1..], i - 1);
    }
  }

  /** A run of writes adds no key but its own. */
  lemma {:induction false} PutAllKeySet(m: map<string, Value>, keys: seq<string>, vals: seq<Option<string>>)
    requires |keys| == |vals|
    ensures forall k :: k in PutAll(m, keys, vals) ==> k in m || k in keys
    decreases |keys|
  {
    if keys != [] {
      PutAllKeySet(Put(m, keys[0], StrValue(vals[0])), keys[1..], vals[1..]);
    }
  }

  /** The script keys in the order `encode(to:)` writes them. */
  const WrittenScriptKeys: seq<string> := ["script", "script.param", "script.presort",
    "script.presort.param", "script.prerequest", "script.prerequest.param"]

  /** Where the `k`-th query-parameter key is written. */
  function WrittenAt(k: nat): (j: nat)
    requires k < 6
    ensures j < 6
  {
    if k < 2 then k else if k < 4 then k + 2 else k - 2
  }

  /** The written keys are the six script keys, each written once. */
  lemma WrittenScriptKeysDistinct()
    ensures forall k :: 0 <= k < 6 ==> WrittenScriptKeys[WrittenAt(k)] == ScriptKeys[k]
    ensures forall j :: 0 <= j < 6 ==> WrittenScriptKeys[j] in ScriptKeys
    ensures forall i, j :: 0 <= i < 6 && 0 <= j < 6 && i != j ==> WrittenScriptKeys[i] != WrittenScriptKeys[j]
  {
    var lengths := [6, 12, 14, 20, 17, 23];
    assert forall j :: 0 <= j < 6 ==> |WrittenScriptKeys[j]| == lengths[j];
  }

  /** The script fields written into `m`, each present one under its key. */
  function WithScript(m: map<string, Value>, script: Option<ScriptQuery>): (r: map<string, Value>)
    ensures m.Keys <= r.Keys
  {
    if script.None? then m
    else
      var q := script.value;
      Put(Put(Put(Put(Put(Put(m,
        "script", StrValue(q.script)),
        "script.param", StrValue(q.scriptParam)),
        "script.presort", StrValue(q.scriptPreSort)),
        "script.presort.param", StrValue(q.scriptPreSortParam)),
        "script.prerequest", StrValue(q.scriptPreRequest)),
        "script.prerequest.param", StrValue(q.scriptPreRequestParam))
  }

  /** Each script key is written exactly when the script query has that field. */
  lemma WithScriptKey(m: map<string, Value>, script: Option<ScriptQuery>, k: nat)
    requires k < 6
    ensures ScriptKeys[k] in WithScript(m, script)
        <==> (script.Some? && script.value.Values()[k].Some?) || ScriptKeys[k] in m
    ensures script.Some? && script.value.Values()[k].Some?
        ==> WithScript(m, script)[ScriptKeys[k]] == JStr(script.value.Values()[k].value)
  {
    if script.Some? {
      var q := script.value;
      PutAllSix(m, WrittenScriptKeys, q.Written());
      WrittenScriptKeysDistinct();
      var j := WrittenAt(k);
      assert q.Written()[j] == q.Values()[k];
      PutAllAt(m, WrittenScriptKeys, q.Written(), j);
    }
  }

  /** Writing the script fields leaves every other key as it was. */
  lemma WithScriptKeeps(m: map<string, Value>, script: Option<ScriptQuery>, key: string)
    requires key !in ScriptKeys
    ensures key in WithScript(m, script) <==> key in m
    ensures key in m ==> WithScript(m, script)[key] == m[key]
  {
    if script.Some? {
      PutAllSix(m, WrittenScriptKeys, script.value.Written());
      WrittenScriptKeysDistinct();
      PutAllKeeps(m, WrittenScriptKeys, script.value.Written(), key);
    }
  }

  /** Writing the script fields adds no key but the six script keys. */
  lemma WithScriptKeySet(m: map<string, Value>, script: Option<ScriptQuery>)
    ensures forall k :: k in WithScript(m, script) ==> k in m || k in ScriptKeys
  {
    if script.Some? {
      PutAllSix(m, WrittenScriptKeys, script.value.Written());
      WrittenScriptKeysDistinct();
      PutAllKeySet(m, WrittenScriptKeys, script.value.Written());
    }
  }

  /** What one portal writes: `limit.<name>` then `offset.<name>`, each only when present. */
  function WithPortal(m: map<string, Value>, p: PortalRequest): map<string, Value> {
    Put(Put(m, "limit." + p.name, StrValue(p.limit)), "offset." + p.name, StrValue(p.offset))
  }

  /** The keys the portals write, one portal after another. */
  function WithPortals(m: map<string, Value>, portals: seq<PortalRequest>): (r: map<string, Value>)
    ensures m.Keys <= r.Keys
  {
    if portals == [] then m
    else WithPortal(WithPortals(m, portals[..|portals| - 1]), portals[|portals| - 1])
  }

  /** The limit of the last portal named `name` that has one. */
  function LastLimit(portals: seq<PortalRequest>, name: string): Option<string> {
    if portals == [] then None
    else if portals[|portals| - 1].name == name && portals[|portals| - 1].limit.Some? then
      portals[|portals| - 1].limit
    else LastLimit(portals[..|portals| - 1], name)
  }

  /** The offset of the last portal named `name` that has one. */
  function LastOffset(portals: seq<PortalRequest>, name: string): Option<string> {
    if portals == [] then None
    else if portals[|portals| - 1].name == name && portals[|portals| - 1].offset.Some? then
      portals[|portals| - 1].offset
    else LastOffset(portals[..|portals| - 1], name)
  }

  lemma PrefixedKeysDiffer(a: string, b: string)
    ensures ("limit." + a == "limit." + b) <==> a == b
    ensures ("offset." + a == "offset." + b) <==> a == b
    ensures "limit." + a != "offset." + b
  {
    if "limit." + a == "limit." + b {
      assert a == ("limit." + a)[6..];
    }
    if "offset." + a == "offset." + b {
      assert a == ("offset." + a)[7..];
    }
    assert ("limit." + a)[0] == 'l' && ("offset." + b)[0] == 'o';
  }

  /** `limit.<t>` holds the limit of the last portal named `t` that has one, and
      `offset.<t>` likewise; where no portal gives one, the key is as it was. */
  lemma {:induction false} WithPortalsLookup(m: map<string, Value>, portals: seq<PortalRequest>, name: string)
    ensures ("limit." + name in WithPortals(m, portals))
        <==> LastLimit(portals, name).Some? || "limit." + name in m
    ensures LastLimit(portals, name).Some?
        ==> WithPortals(m, portals)["limit." + name] == JStr(LastLimit(portals, name).value)
    ensures ("offset." + name in WithPortals(m, portals))
        <==> LastOffset(portals, name).Some? || "offset." + name in m
    ensures LastOffset(portals, name).Some?
        ==> WithPortals(m, portals)["offset." + name] == JStr(LastOffset(portals, name).value)
    decreases |portals|
  {
    if portals != [] {
      var p := portals[|portals| - 1];
      WithPortalsLookup(m, portals[..|portals| - 1], name);
      PrefixedKeysDiffer(name, p.name);
      PrefixedKeysDiffer(p.name, name);
    }
  }

  /** The portals write only `limit.` and `offset.` keys. */
  lemma {:induction false} WithPortalsKeeps(m: map<string, Value>, portals: seq<PortalRequest>, key: string)
    requires !("limit." <= key) && !("offset." <= key)
    ensures key in WithPortals(m, portals) <==> key in m
    ensures key in m ==> WithPortals(m, portals)[key] == m[key]
    decreases |portals|
  {
    if portals != [] {
      var p := portals[|portals| - 1];
      WithPortalsKeeps(m, portals[..|portals| - 1], key);
      assert "limit." <= "limit." + p.name && "offset." <= "offset." + p.name;
    }
  }

  /** `key` is the limit or offset key of one of the portals. */
  predicate PortalKey(portals: seq<PortalRequest>, key: string) {
    exists i :: 0 <= i < |portals| && (key == "limit." + portals[i].name || key == "offset." + portals[i].name)
  }

  /** The portals add no key but their own `limit.` and `offset.` keys. */
  lemma {:induction false} WithPortalsKeySet(m: map<string, Value>, portals: seq<PortalRequest>)
    ensures forall k :: k in WithPortals(m, portals) ==> k in m || PortalKey(portals, k)
    decreases |portals|
  {
    if portals != [] {
      var init, p := portals[..|portals| - 1], portals[|portals| - 1];
      WithPortalsKeySet(m, init);
      forall k | k in WithPortals(m, portals)
        ensures k in m || PortalKey(portals, k)
      {
        if PortalKey(init, k) {
          var i :| 0 <= i < |init| && (k == "limit." + init[i].name || k == "offset." + init[i].name);
          assert portals[i] == init[i];
        } else if k !in m {
          assert k == "limit." + p.name || k == "offset." + p.name;
        }
      }
    }
  }

  datatype FindQuery = FindQuery(
    query: seq<map<string, string>>,
    sortOrder: Option<seq<SortQuery>>,
    script: Option<ScriptQuery>,
    offset: Option<Int64>,
    limit: Option<Int64>,
    layoutResponse: Option<string>,
    portal: Option<seq<PortalRequest>>)

  function SortValueOf(sorts: Option<seq<SortQuery>>): Option<Value> {
    if sorts.Some? then Some(SortArray(sorts.value)) else None
  }

  /** The fixed keys of the find request, before portals and script. */
  function FindQueryHead(q: FindQuery): map<string, Value> {
    Put(Put(Put(Put(map["query" := QueryArray(q.query)],
      "sort", SortValueOf(q.sortOrder)),
      "offset", NumValue(q.offset)),
      "limit", NumValue(q.limit)),
      "layout.response", StrValue(q.layoutResponse))
  }

  /** The object `FindQuery.encode(to:)` writes, in the order the keys are written. */
  function FindQueryObject(q: FindQuery): (r: map<string, Value>)
    ensures "query" in r
    ensures FindQueryHead(q).Keys <= r.Keys
  {
    var head := FindQueryHead(q);
    var withPortals :=
      if q.portal.Some? then WithPortals(head["portal" := NameArray(q.portal.value)], q.portal.value)
      else head;
    WithScript(withPortals, q.script)
  }

  /** `encodeIfPresent` of a string. */
  method WriteIfPresent(container: map<string, Value>, key: string, v: Option<string>)
    returns (result: map<string, Value>)
    ensures result == Put(container, key, StrValue(v))
  {
    result := container;
    if v.Some? {
      result := result[key := JStr(v.value)];
    }
  }

  /** Writes the script fields into `container`, one present field at a time. */
  method WriteScript(container: map<string, Value>, script: Option<ScriptQuery>)
    returns (result: map<string, Value>)
    ensures result == WithScript(container, script)
  {
    result := container;
    if script.Some? {
      var q := script.value;
      result := WriteIfPresent(result, "script", q.script);
      result := WriteIfPresent(result, "script.param", q.scriptParam);
      result := WriteIfPresent(result, "script.presort", q.scriptPreSort);
      result := WriteIfPresent(result, "script.presort.param", q.scriptPreSortParam);
      result := WriteIfPresent(result, "script.prerequest", q.scriptPreRequest);
      result := WriteIfPresent(result, "script.prerequest.param", q.scriptPreRequestParam);
    }
  }

  /** The fixed keys of `FindQuery.encode(to:)`, written one at a time. */
  method WriteFindHead(q: FindQuery) returns (container: map<string, Value>)
    ensures container == FindQueryHead(q)
  {
    container := map["query" := QueryArray(q.query)];
    if q.sortOrder.Some? { container := container["sort" := SortArray(q.sortOrder.value)]; }
    if q.offset.Some? { container := container["offset" := JNum(q.offset.value)]; }
    if q.limit.Some? { container := container["limit" := JNum(q.limit.value)]; }
    if q.layoutResponse.Some? {
      container := container["layout.response" := JStr(q.layoutResponse.value)];
    }
  }

  /** The portal loop of `FindQuery.encode(to:)`: each portal's limit, then its offset. */
  method WritePortals(start: map<string, Value>, portals: seq<PortalRequest>)
    returns (container: map<string, Value>)
    ensures container == WithPortals(start, portals)
  {
    container := start;
    for i := 0 to |portals|
      invariant container == WithPortals(start, portals[..i])
    {
      var p := portals[i];
      assert portals[..i + 1][..i] == portals[..i];
      if p.limit.Some? { container := container["limit." + p.name := JStr(p.limit.value)]; }
      if p.offset.Some? { container := container["offset." + p.name := JStr(p.offset.value)]; }
    }
    assert portals[..|portals|] == portals;
  }

  /** `FindQuery.encode(to:)`: the fixed keys, the portal names and keys, then the script. */
  method EncodeFindQuery(q: FindQuery) returns (container: map<string, Value>)
    ensures container == FindQueryObject(q)
  {
    container := WriteFindHead(q);
    if q.portal.Some? {
      container := WritePortals(container["portal" := NameArray(q.portal.value)], q.portal.value);
    }
    container := WriteScript(container, q.script);
  }

  /** A fixed key is not one the portals or the script query write. */
  lemma FixedKey(key: string)
    requires key in {"query", "sort", "offset", "limit", "layout.response", "portal", "fieldData",
                     "portalData", "modId"}
    ensures !("limit." <= key) && !("offset." <= key) && key !in ScriptKeys
  {
    if key == "layout.response" {
      assert key[1] == 'a';
    } else if key != "offset" && key != "limit" {
      assert key[0] != 'l' && key[0] != 'o';
    }
    if key == "sort" {
      assert |key| == 4;
    } else {
      assert key[0] != 's';
    }
  }

  /** The keys written before the portals. */
  lemma FindQueryHeadKeys(q: FindQuery, key: string)
    requires key in {"query", "sort", "offset", "limit", "layout.response"}
    ensures "portal" !in FindQueryHead(q)
    ensures key in FindQueryHead(q) <==>
      match key
      case "query" => true
      case "sort" => q.sortOrder.Some?
      case "offset" => q.offset.Some?
      case "limit" => q.limit.Some?
      case _ => q.layoutResponse.Some?
    ensures key in FindQueryHead(q) ==>
      FindQueryHead(q)[key] == match key
      case "query" => QueryArray(q.query)
      case "sort" => SortArray(q.sortOrder.value)
      case "offset" => JNum(q.offset.value)
      case "limit" => JNum(q.limit.value)
      case _ => JStr(q.layoutResponse.value)
  {
  }

  /** The find request body: `query` always; `sort`, `offset`, `limit` and `layout.response`
      exactly when given; `portal`, the list of names, exactly when portals are given. */
  lemma FindQueryKeys(q: FindQuery, key: string)
    requires key in {"query", "sort", "offset", "limit", "layout.response", "portal"}
    ensures key in FindQueryObject(q) <==>
      match key
      case "query" => true
      case "sort" => q.sortOrder.Some?
      case "offset" => q.offset.Some?
      case "limit" => q.limit.Some?
      case "layout.response" => q.layoutResponse.Some?
      case _ => q.portal.Some?
    ensures key in FindQueryObject(q) ==>
      FindQueryObject(q)[key] == match key
      case "query" => QueryArray(q.query)
      case "sort" => SortArray(q.sortOrder.value)
      case "offset" => JNum(q.offset.value)
      case "limit" => JNum(q.limit.value)
      case "layout.response" => JStr(q.layoutResponse.value)
      case _ => NameArray(q.portal.value)
  {
    FixedKey(key);
    var head := FindQueryHead(q);
    if key != "portal" {
      FindQueryHeadKeys(q, key);
    }
    if q.portal.Some? {
      WithPortalsKeeps(head["portal" := NameArray(q.portal.value)], q.portal.value, key);
    }
    var withPortals :=
      if q.portal.Some? then WithPortals(head["portal" := NameArray(q.portal.value)], q.portal.value)
      else head;
    WithScriptKeeps(withPortals, q.script, key);
  }

  /** The find request body holds no key but the fixed ones, the script keys, and the
      `limit.` and `offset.` keys of the given portals. */
  lemma FindQueryKeySet(q: FindQuery)
    ensures forall k :: k in FindQueryObject(q) ==>
      || k in {"query", "sort", "offset", "limit", "layout.response", "portal"}
      || k in ScriptKeys
      || (q.portal.Some? && PortalKey(q.portal.value, k))
  {
    var head := FindQueryHead(q);
    assert forall k :: k in head ==> k in {"query", "sort", "offset", "limit", "layout.response"};
    var withPortals :=
      if q.portal.Some? then WithPortals(head["portal" := NameArray(q.portal.value)], q.portal.value)
      else head;
    if q.portal.Some? {
      WithPortalsKeySet(head["portal" := NameArray(q.portal.value)], q.portal.value);
    }
    WithScriptKeySet(withPortals, q.script);
  }

  /** With portals, `limit.<t>` and `offset.<t>` hold the last given limit and offset of the
      portals named `t`; without portals there are no such keys. */
  lemma FindQueryPortalKeys(q: FindQuery, table: string)
    ensures ("limit." + table in FindQueryObject(q)) <==> q.portal.Some? && LastLimit(q.portal.value, table).Some?
    ensures ("offset." + table in FindQueryObject(q)) <==> q.portal.Some? && LastOffset(q.portal.value, table).Some?
    ensures q.portal.Some? && LastLimit(q.portal.value, table).Some?
        ==> FindQueryObject(q)["limit." + table] == JStr(LastLimit(q.portal.value, table).value)
    ensures q.portal.Some? && LastOffset(q.portal.value, table).Some?
        ==> FindQueryObject(q)["offset." + table] == JStr(LastOffset(q.portal.value, table).value)
  {
    var head := FindQueryHead(q);
    var lk, ok := "limit." + table, "offset." + table;
    PortalKeyNotFixed(table);
    if q.portal.Some? {
      WithPortalsLookup(head["portal" := NameArray(q.portal.value)], q.portal.value, table);
    }
    var withPortals :=
      if q.portal.Some? then WithPortals(head["portal" := NameArray(q.portal.value)], q.portal.value)
      else head;
    WithScriptKeeps(withPortals, q.script, lk);
    WithScriptKeeps(withPortals, q.script, ok);
  }

  /** Portal keys are none of the fixed keys and none of the script keys. */
  lemma PortalKeyNotFixed(table: string)
    ensures "limit." + table !in ScriptKeys && "offset." + table !in ScriptKeys
    ensures "limit." + table !in {"query", "sort", "offset", "limit", "layout.response", "portal"}
    ensures "offset." + table !in {"query", "sort", "offset", "limit", "layout.response", "portal"}
  {
    var lk, ok := "limit." + table, "offset." + table;
    assert lk[0] == 'l' && lk[1] == 'i' && |lk| >= 6;
    assert ok[0] == 'o' && |ok| >= 7;
  }

  /** The script keys of a find request are exactly the script query's present fields. */
  lemma FindQueryScriptKeys(q: FindQuery, k: nat)
    requires k < 6
    ensures ScriptKeys[k] in FindQueryObject(q) <==> q.script.Some? && q.script.value.Values()[k].Some?
    ensures ScriptKeys[k] in FindQueryObject(q)
        ==> FindQueryObject(q)[ScriptKeys[k]] == JStr(q.script.value.Values()[k].value)
  {
    var head := FindQueryHead(q);
    var key := ScriptKeys[k];
    assert key[0] == 's';
    assert key !in {"query", "sort", "offset", "limit", "layout.response", "portal"};
    if q.portal.Some? {
      WithPortalsKeeps(head["portal" := NameArray(q.portal.value)], q.portal.value, key);
    }
    var withPortals :=
      if q.portal.Some? then WithPortals(head["portal" := NameArray(q.portal.value)], q.portal.value)
      else head;
    WithScriptKey(withPortals, q.script, k);
  }

  // Record edits

  datatype EditRecord = EditRecord(
    fieldData: Value,
    portalData: Option<map<string, Option<Value>>>,
    modId: Option<string>,
    script: Option<ScriptQuery>,
    layoutResponse: Option<string>)

  /** `EditRecord(createRecord:portalData:script:layoutResponse:)`: no modification id. */
  function ForCreate(record: Value, portalData: Option<map<string, Option<Value>>>,
                     script: Option<ScriptQuery>, layoutResponse: Option<string>): (e: EditRecord)
    ensures e.modId.None?
    ensures e.fieldData == record && e.portalData == portalData
    ensures e.script == script && e.layoutResponse == layoutResponse
  {
    EditRecord(record, portalData, None, script, layoutResponse)
  }

  /** `EditRecord(editRecord:...)` and `EditRecord(editRecords:...)`, which store their
      arguments alike; the overloads without portal data pass `None`. */
  function ForEdit(record: Value, portalData: Option<map<string, Option<Value>>>, modId: Option<string>,
                   script: Option<ScriptQuery>, layoutResponse: Option<string>): (e: EditRecord)
    ensures e.fieldData == record && e.portalData == portalData && e.modId == modId
    ensures e.script == script && e.layoutResponse == layoutResponse
  {
    EditRecord(record, portalData, modId, script, layoutResponse)
  }

  /** Portal rows as a JSON object; an absent row encodes as null. */
  function PortalDataObject(portalData: map<string, Option<Value>>): (v: Value)
    ensures v.JObj? && v.fields.Keys == portalData.Keys
    ensures forall k :: k in portalData ==> v.fields[k] == portalData[k].GetOr(JNull)
  {
    JObj(map k | k in portalData :: portalData[k].GetOr(JNull))
  }

  function PortalDataValue(portalData: Option<map<string, Option<Value>>>): Option<Value> {
    if portalData.Some? then Some(PortalDataObject(portalData.value)) else None
  }

  /** The object `EditRecord.encode(to:)` writes. */
  function EditRecordObject(e: EditRecord): (r: map<string, Value>)
    ensures "fieldData" in r
    ensures e.modId.Some? ==> "modId" in r
    ensures e.layoutResponse.Some? ==> "layout.response" in r
  {
    WithScript(
      Put(Put(Put(map["fieldData" := e.fieldData],
        "portalData", PortalDataValue(e.portalData)),
        "modId", StrValue(e.modId)),
        "layout.response", StrValue(e.layoutResponse)),
      e.script)
  }

  /** The edit body holds no key but its four fixed keys and the script keys. */
  lemma EditRecordKeySet(e: EditRecord)
    ensures forall k :: k in EditRecordObject(e) ==>
      k in {"fieldData", "portalData", "modId", "layout.response"} || k in ScriptKeys
  {
    WithScriptKeySet(
      Put(Put(Put(map["fieldData" := e.fieldData],
        "portalData", PortalDataValue(e.portalData)),
        "modId", StrValue(e.modId)),
        "layout.response", StrValue(e.layoutResponse)),
      e.script);
  }

  /** `EditRecord.encode(to:)`: the keys are written one at a time. */
  method EncodeEditRecord(e: EditRecord) returns (container: map<string, Value>)
    ensures container == EditRecordObject(e)
  {
    container := map["fieldData" := e.fieldData];
    if e.portalData.Some? {
      container := container["portalData" := PortalDataObject(e.portalData.value)];
    }
    if e.modId.Some? { container := container["modId" := JStr(e.modId.value)]; }
    if e.layoutResponse.Some? {
      container := container["layout.response" := JStr(e.layoutResponse.value)];
    }
    container := WriteScript(container, e.script);
  }

  /** The edit body: `fieldData` always; `portalData`, `modId` and `layout.response` exactly
      when given. */
  lemma EditRecordKeys(e: EditRecord, key: string)
    requires key in {"fieldData", "portalData", "modId", "layout.response"}
    ensures key in EditRecordObject(e) <==>
      match key
      case "fieldData" => true
      case "portalData" => e.portalData.Some?
      case "modId" => e.modId.Some?
      case _ => e.layoutResponse.Some?
    ensures key in EditRecordObject(e) ==>
      EditRecordObject(e)[key] == match key
      case "fieldData" => e.fieldData
      case "portalData" => PortalDataObject(e.portalData.value)
      case "modId" => JStr(e.modId.value)
      case _ => JStr(e.layoutResponse.value)
  {
    FixedKey(key);
    WithScriptKeeps(
      Put(Put(Put(map["fieldData" := e.fieldData],
        "portalData", PortalDataValue(e.portalData)),
        "modId", StrValue(e.modId)),
        "layout.response", StrValue(e.layoutResponse)),
      e.script, key);
  }

  /** The script keys of an edit body are exactly the script query's present fields. */
  lemma EditRecordScriptKeys(e: EditRecord, k: nat)
    requires k < 6
    ensures ScriptKeys[k] in EditRecordObject(e) <==> e.script.Some? && e.script.value.Values()[k].Some?
    ensures ScriptKeys[k] in EditRecordObject(e)
        ==> EditRecordObject(e)[ScriptKeys[k]] == JStr(e.script.value.Values()[k].value)
  {
    var key := ScriptKeys[k];
    assert key[0] == 's';
    assert key !in {"fieldData", "portalData", "modId", "layout.response"};
    WithScriptKey(
      Put(Put(Put(map["fieldData" := e.fieldData],
        "portalData", PortalDataValue(e.portalData)),
        "modId", StrValue(e.modId)),
        "layout.response", StrValue(e.layoutResponse)),
      e.script, k);
  }

  /** A record created through the `createRecord` initializer never sends a `modId`. */
  lemma CreateSendsNoModId(record: Value, portalData: Option<map<string, Option<Value>>>,
                           script: Option<ScriptQuery>, layoutResponse: Option<string>)
    ensures "modId" !in EditRecordObject(ForCreate(record, portalData, script, layoutResponse))
  {
    EditRecordKeys(ForCreate(record, portalData, script, layoutResponse), "modId");
  }
}
