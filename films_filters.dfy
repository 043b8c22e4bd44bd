/** The film page's filter record and its two-way mapping to the URL query
    string (client/src/pages/Films.jsx): selection toggles, the name filter
    of the genre and actor lists, parsing the location into filters, and the
    two query builders (apply and page change). */
module FilmFilters {
  import opened Optional
  import opened Text
  import opened SearchParams

  /** A filter field's value as the page holds it. The initial record holds
      numbers and strings, a slider stores numbers, and parsing the URL stores
      strings; the id lists start as arrays. JavaScript compares these with
      `!==`, so `Num(0)` and `Str("0")` are different values here too. */
  datatype Value = Num(n: int) | Str(s: string) | Ids(ids: seq<nat>)

  /** A genre or an actor as the selection lists show it. */
  datatype Named = Named(id: nat, name: string)

  /** The filter record: the twelve value fields by key, the page number and
      page size (always numbers), and the keys the URL brought in that the
      record does not declare, in insertion order. */
  datatype Filters = Filters(values: map<string, Value>, page: int, pageSize: int, extra: Query)

  const PageSize: int := 9

  /** The record's keys in declaration order. */
  const FilterKeys: seq<string> := ["genre_ids", "actor_ids", "producer", "min_rating", "max_rating",
    "min_date", "max_date", "min_duration", "max_duration", "sort_by", "order", "page", "page_size", "query"]

  const PaginationKeys: set<string> := {"page", "page_size"}

  /** The keys held in `values`: every key of the record but the pagination. */
  const ValueKeys: set<string> := {"genre_ids", "actor_ids", "producer", "min_rating", "max_rating",
    "min_date", "max_date", "min_duration", "max_duration", "sort_by", "order", "query"}

  const DefaultFilters: Filters := Filters(
    map["genre_ids" := Ids([]), "actor_ids" := Ids([]), "producer" := Str(""),
        "min_rating" := Num(0), "max_rating" := Num(100), "min_date" := Str(""), "max_date" := Str(""),
        "min_duration" := Num(0), "max_duration" := Num(300), "sort_by" := Str(""),
        "order" := Str("desc"), "query" := Str("")],
    1, PageSize, [])

  /** The record's shape: all twelve value fields present, and the extra keys
      distinct and different from the declared ones. */
  ghost predicate WellFormed(f: Filters) {
    && f.values.Keys == ValueKeys
    && Distinct(KeysOf(f.extra))
    && forall k :: k in KeysOf(f.extra) ==> !Declared(k)
  }

  /** `k` is one of the record's own keys. */
  predicate Declared(k: string) {
    k in ValueKeys || k in PaginationKeys
  }

  lemma DefaultWellFormed()
    ensures WellFormed(DefaultFilters)
  {}

  // ---------------------------------------------------------------- JavaScript values

  /** JavaScript truthiness: `0` and `""` are false, every array is true. */
  predicate Truthy(v: Value) {
    match v
    case Num(n) => n != 0
    case Str(s) => s != ""
    case Ids(_) => true
  }

  /** `ids.join(",")`, which is also `String(ids)`. */
  function JoinIds(ids: seq<nat>): string {
    Join(seq(|ids|, i requires 0 <= i < |ids| => NatToString(ids[i])), ",")
  }

  /** `String(v)`, as `URLSearchParams` applies it to every value it stores. */
  function Stringify(v: Value): string {
    match v
    case Num(n) => IntToString(n)
    case Str(s) => s
    case Ids(ids) => JoinIds(ids)
  }

  // ---------------------------------------------------------------- selections

  /** `r` is `s` with some elements left out, the rest in their order. */
  predicate IsSubsequence<T(==)>(r: seq<T>, s: seq<T>)
    decreases |s|
  {
    if r == [] then true
    else if s == [] then false
    else if r[0] == s[0] then IsSubsequence(r[1..], s[1..])
    else IsSubsequence(r, s[1..])
  }

  /** `selection.filter((x) => x !== id)`. */
  function Remove(selection: seq<nat>, id: nat): (r: seq<nat>)
    ensures id !in r
    ensures IsSubsequence(r, selection)
    ensures forall x :: x != id ==> multiset(r)[x] == multiset(selection)[x]
  {
    if selection == [] then []
    else if selection[0] == id then
      var rest := Remove(selection[1..], id);
      assert selection == [selection[0]] + selection[1..];
      SubsequenceSkip(rest, selection);
      rest
    else
      assert selection == [selection[0]] + selection[1..];
      [selection[0]] + Remove(selection[1..], id)
  }

  lemma SubsequenceSkip<T>(r: seq<T>, s: seq<T>)
    requires s != [] && IsSubsequence(r, s[1..]) && (r != [] ==> r[0] != s[0])
    ensures IsSubsequence(r, s)
  {}

  /** Selecting a genre or an actor (`handleGenreSelect`, `handleActorSelect`):
      a selected id is removed everywhere it occurs, the others keeping their
      order; an unselected id is appended. */
  function Toggle(selection: seq<nat>, id: nat): (r: seq<nat>)
    ensures id in selection ==> id !in r && IsSubsequence(r, selection)
    ensures id in selection ==> forall x :: x != id ==> multiset(r)[x] == multiset(selection)[x]
    ensures id !in selection ==> r == selection + [id]
  {
    if id in selection then Remove(selection, id) else selection + [id]
  }

  lemma {:induction false} RemoveAbsent(selection: seq<nat>, id: nat)
    requires id !in selection
    ensures Remove(selection, id) == selection
  {
    if selection != [] {
      RemoveAbsent(selection[1..], id);
    }
  }

  lemma {:induction false} RemoveAppended(selection: seq<nat>, id: nat)
    ensures Remove(selection + [id], id) == Remove(selection, id)
  {
    if selection == [] {
      assert Remove([id], id) == Remove([], id);
    } else {
      assert (selection + [id])[1..] == selection[1..] + [id];
      RemoveAppended(selection[1..], id);
    }
  }

  /** Selecting an unselected id and selecting it again restores the list. */
  lemma ToggleTwice(selection: seq<nat>, id: nat)
    requires id !in selection
    ensures Toggle(Toggle(selection, id), id) == selection
  {
    RemoveAppended(selection, id);
    RemoveAbsent(selection, id);
  }

  // ---------------------------------------------------------------- name filter

  /** The item's lower-cased name contains the lower-cased search text. */
  predicate Matches(item: Named, search: string) {
    Contains(Lower(item.name), Lower(search))
  }

  /** `filteredGenres` / `filteredActors`: the items whose name contains the
      search text, case-insensitively, in their original order. */
  function FilterByName(items: seq<Named>, search: string): (r: seq<Named>)
    ensures IsSubsequence(r, items)
    ensures forall i :: 0 <= i < |r| ==> Matches(r[i], search)
    ensures forall x :: Matches(x, search) ==> multiset(r)[x] == multiset(items)[x]
  {
    if items == [] then []
    else
      assert items == [items[0]] + items[1..];
      var rest := FilterByName(items[1..], search);
      if Matches(items[0], search) then [items[0]] + rest
      else
        SubsequenceSkip(rest, items);
        rest
  }

  /** An empty search text keeps every item. */
  lemma {:induction false} FilterByNameEmptySearch(items: seq<Named>)
    ensures FilterByName(items, "") == items
  {
    if items != [] {
      ContainsEmpty(Lower(items[0].name));
      FilterByNameEmptySearch(items[1..]);
    }
  }

  // ---------------------------------------------------------------- parsing the location

  /** `parseInt(queryParams.get("page")) || 1`: the page read from the URL, 1
      when it is missing, not a number or zero. */
  function PageParam(search: Query): (page: int)
    ensures page != 0
    ensures Get(search, "page").None? ==> page == 1
    ensures Get(search, "page").Some? && ParseInt(Get(search, "page").value) in {None, Some(0)} ==> page == 1
    ensures Get(search, "page").Some? && ParseInt(Get(search, "page").value).Some?
              && ParseInt(Get(search, "page").value).value != 0
            ==> page == ParseInt(Get(search, "page").value).value
  {
    match Get(search, "page")
    case None => 1
    case Some(text) =>
      match ParseInt(text)
      case None => 1
      case Some(n) => if n != 0 then n else 1
  }

  /** A page written in decimal is read back as that page. */
  lemma PageParamOfRendered(search: Query, n: int)
    requires n != 0 && Get(search, "page") == Some(IntToString(n))
    ensures PageParam(search) == n
  {
    ParseIntOfIntToString(n);
  }

  /** The `params` object the location effect builds. */
  datatype Params = Params(page: int, pageSize: int, entries: Query)

  /** `p` is what the location effect builds from `search`: the page read from
      the URL, the fixed page size, and every other key of the URL once, in
      order of first appearance, holding its last value. */
  ghost predicate ParsedFrom(p: Params, search: Query) {
    && p.page == PageParam(search)
    && p.pageSize == PageSize
    && Distinct(KeysOf(p.entries))
    && KeysOf(p.entries) == FirstKeys(search, PaginationKeys)
    && forall k :: Get(p.entries, k) == if k in PaginationKeys then None else LastValue(search, k)
  }

  /** The location effect's parse (lines 127-137). */
  method ParseLocation(search: Query) returns (p: Params)
    ensures ParsedFrom(p, search)
  {
    var entries := CopyEntries(search, PaginationKeys);
    p := Params(PageParam(search), PageSize, entries);
  }

  /** `{...f, [k]: v}` for one string value coming from the URL. */
  function AssignKey(f: Filters, k: string, v: string): Filters {
    if k in ValueKeys then f.(values := f.values[k := Str(v)])
    else f.(extra := SetParam(f.extra, k, v))
  }

  /** Assigning the URL's pairs one by one. */
  function AssignAll(f: Filters, entries: Query): (r: Filters)
    ensures r.page == f.page && r.pageSize == f.pageSize
    decreases |entries|
  {
    if entries == [] then f else AssignAll(AssignKey(f, entries[0].0, entries[0].1), entries[1..])
  }

  /** `{ ...prevFilters, ...params }`. */
  function Merge(prev: Filters, p: Params): (r: Filters)
    ensures r.page == p.page && r.pageSize == p.pageSize
  {
    AssignAll(prev.(page := p.page, pageSize := p.pageSize), p.entries)
  }

  /** One assignment changes the named field, or adds or updates an extra
      key, and nothing else. */
  lemma AssignKeySpec(f: Filters, k: string, v: string)
    requires WellFormed(f) && k !in PaginationKeys
    ensures var r := AssignKey(f, k, v);
      && WellFormed(r) && r.page == f.page && r.pageSize == f.pageSize
      && (forall k' :: k' in ValueKeys ==> r.values[k'] == if k' == k then Str(v) else f.values[k'])
      && (forall k' :: !Declared(k') ==> Get(r.extra, k') == if k' == k then Some(v) else Get(f.extra, k'))
      && KeysOf(f.extra) <= KeysOf(r.extra)
  {
    if k !in ValueKeys {
      var r := AssignKey(f, k, v);
      if k in KeysOf(f.extra) {
        SetParamInPlace(f.extra, k, v);
        assert KeysOf(r.extra) == KeysOf(f.extra);
      } else {
        assert KeysOf(r.extra) == KeysOf(f.extra) + [k];
      }
    }
  }

  /** The first pair of an object with distinct keys is found under its key,
      and no other key finds it. */
  lemma GetFirstOfDistinct(entries: Query)
    requires entries != [] && Distinct(KeysOf(entries))
    ensures Distinct(KeysOf(entries[1..]))
    ensures Get(entries, entries[0].0) == Some(entries[0].1) && Get(entries[1..], entries[0].0) == None
    ensures forall k :: k != entries[0].0 ==> Get(entries, k) == Get(entries[1..], k)
  {
    var k0 := entries[0].0;
    assert KeysOf(entries) == [k0] + KeysOf(entries[1..]);
    assert Distinct(KeysOf(entries[1..])) by {
      forall i, j | 0 <= i < j < |entries| - 1 ensures KeysOf(entries[1..])[i] != KeysOf(entries[1..])[j] {
        assert KeysOf(entries)[i + 1] != KeysOf(entries)[j + 1];
      }
    }
    assert k0 !in KeysOf(entries[1..]) by {
      forall i | 0 <= i < |entries| - 1 ensures KeysOf(entries[1..])[i] != k0 {
        assert KeysOf(entries)[0] != KeysOf(entries)[i + 1];
      }
    }
  }

  /** What assigning a whole object does to the value fields. */
  lemma {:induction false} AssignAllValues(f: Filters, entries: Query)
    requires WellFormed(f) && Distinct(KeysOf(entries))
    requires forall k :: k in KeysOf(entries) ==> k !in PaginationKeys
    ensures var r := AssignAll(f, entries);
      && WellFormed(r) && r.page == f.page && r.pageSize == f.pageSize
      && forall k :: k in ValueKeys ==>
           r.values[k] == match Get(entries, k) case Some(v) => Str(v) case None => f.values[k]
    decreases |entries|
  {
    if entries != [] {
      var (k0, v0) := entries[0];
      GetFirstOfDistinct(entries);
      var f1 := AssignKey(f, k0, v0);
      assert k0 in KeysOf(entries);
      AssignKeySpec(f, k0, v0);
      assert forall k :: k in KeysOf(entries[1..]) ==> k in KeysOf(entries);
      AssignAllValues(f1, entries[1..]);
      var r := AssignAll(f, entries);
      assert r == AssignAll(f1, entries[1..]);
      forall k | k in ValueKeys
        ensures r.values[k] == match Get(entries, k) case Some(v) => Str(v) case None => f.values[k]
      {
        if k == k0 {
          assert f1.values[k] == Str(v0);
        } else {
          assert f1.values[k] == f.values[k];
        }
      }
    }
  }

  /** What assigning a whole object does to the keys the record does not
      declare. */
  lemma {:induction false} AssignAllExtra(f: Filters, entries: Query)
    requires WellFormed(f) && Distinct(KeysOf(entries))
    requires forall k :: k in KeysOf(entries) ==> k !in PaginationKeys
    ensures var r := AssignAll(f, entries);
      && (forall k :: !Declared(k) ==>
            Get(r.extra, k) == match Get(entries, k) case Some(v) => Some(v) case None => Get(f.extra, k))
      && KeysOf(f.extra) <= KeysOf(r.extra)
    decreases |entries|
  {
    if entries != [] {
      var (k0, v0) := entries[0];
      GetFirstOfDistinct(entries);
      AssignKeySpec(f, k0, v0);
      AssignAllExtra(AssignKey(f, k0, v0), entries[1..]);
    }
  }

  /** Merging a parsed location over the previous filters: the pagination
      comes from the URL; a field named in the URL holds the URL's string; a
      field the URL does not name keeps its previous value; keys the record
      does not declare are added or updated after the existing ones. */
  lemma MergeSpec(prev: Filters, p: Params, search: Query)
    requires WellFormed(prev) && ParsedFrom(p, search)
    ensures var r := Merge(prev, p);
      && WellFormed(r) && r.page == PageParam(search) && r.pageSize == PageSize
      && (forall k :: k in ValueKeys ==>
            r.values[k] == match LastValue(search, k) case Some(v) => Str(v) case None => prev.values[k])
      && (forall k :: !Declared(k) ==>
            Get(r.extra, k) == match LastValue(search, k) case Some(v) => Some(v) case None => Get(prev.extra, k))
      && KeysOf(prev.extra) <= KeysOf(r.extra)
  {
    forall k | k in KeysOf(p.entries) ensures k !in PaginationKeys {
      assert k in FirstKeys(search, PaginationKeys);
    }
    MergeFields(prev, p, search);
  }

  /** The field-by-field part of `MergeSpec`, from the entries alone. */
  lemma MergeFields(prev: Filters, p: Params, search: Query)
    requires WellFormed(prev) && Distinct(KeysOf(p.entries))
    requires forall k :: k in KeysOf(p.entries) ==> k !in PaginationKeys
    requires forall k :: Get(p.entries, k) == if k in PaginationKeys then None else LastValue(search, k)
    ensures var r := Merge(prev, p);
      && WellFormed(r)
      && (forall k :: k in ValueKeys ==>
            r.values[k] == match LastValue(search, k) case Some(v) => Str(v) case None => prev.values[k])
      && (forall k :: !Declared(k) ==>
            Get(r.extra, k) == match LastValue(search, k) case Some(v) => Some(v) case None => Get(prev.extra, k))
      && KeysOf(prev.extra) <= KeysOf(r.extra)
  {
    var start := prev.(page := p.page, pageSize := p.pageSize);
    AssignAllValues(start, p.entries);
    AssignAllExtra(start, p.entries);
    var r := AssignAll(start, p.entries);
    forall k | k in ValueKeys
      ensures r.values[k] == match LastValue(search, k) case Some(v) => Str(v) case None => prev.values[k]
    {
      assert k !in PaginationKeys;
      assert Get(p.entries, k) == LastValue(search, k);
    }
    forall k | !Declared(k)
      ensures Get(r.extra, k) == match LastValue(search, k) case Some(v) => Some(v) case None => Get(prev.extra, k)
    {
      assert k !in PaginationKeys;
      assert Get(p.entries, k) == LastValue(search, k);
    }
  }

  /** Resetting navigates to a location without a query string; parsing it
      over the default record gives the default record exactly. */
  lemma ResetThenParse(p: Params)
    requires ParsedFrom(p, [])
    ensures Merge(DefaultFilters, p) == DefaultFilters
  {
    assert KeysOf(p.entries) == [];
  }

  // ---------------------------------------------------------------- apply (handleSearch)

  /** The order in which `handleSearch` sets its keys. */
  const SearchKeys: seq<string> := ["genre_ids", "actor_ids", "producer", "min_rating", "max_rating",
    "min_date", "max_date", "min_duration", "max_duration", "sort_by", "order", "query", "page", "page_size"]

  function EmitIf(condition: bool, v: Value): Option<string> {
    if condition then Some(Stringify(v)) else None
  }

  /** Field `k` of the record; a missing field reads as empty. */
  function Field(f: Filters, k: string): Value {
    if k in f.values then f.values[k] else Str("")
  }

  /** What `handleSearch` writes under each key of `SearchKeys`, in that
      order, if anything: the selections when non-empty; a text field when
      truthy; a number or the sort order when strictly unequal (`!==`) to its
      default; the page (or 1) and the page size (or 9) always. */
  function SearchRules(f: Filters, genres: seq<nat>, actors: seq<nat>): (rules: seq<Option<string>>)
    ensures |rules| == |SearchKeys|
  {
    seq(|SearchKeys|, i requires 0 <= i < |SearchKeys| => SearchRule(f, genres, actors, i))
  }

  /** The rule for the `i`-th key of `SearchKeys`. */
  function SearchRule(f: Filters, genres: seq<nat>, actors: seq<nat>, i: nat): Option<string>
    requires i < |SearchKeys|
  {
    if i == 0 then (if |genres| > 0 then Some(JoinIds(genres)) else None)
    else if i == 1 then (if |actors| > 0 then Some(JoinIds(actors)) else None)
    else if i == 2 then EmitIf(Truthy(Field(f, "producer")), Field(f, "producer"))
    else if i == 3 then EmitIf(Field(f, "min_rating") != Num(0), Field(f, "min_rating"))
    else if i == 4 then EmitIf(Field(f, "max_rating") != Num(100), Field(f, "max_rating"))
    else if i == 5 then EmitIf(Truthy(Field(f, "min_date")), Field(f, "min_date"))
    else if i == 6 then EmitIf(Truthy(Field(f, "max_date")), Field(f, "max_date"))
    else if i == 7 then EmitIf(Field(f, "min_duration") != Num(0), Field(f, "min_duration"))
    else if i == 8 then EmitIf(Field(f, "max_duration") != Num(300), Field(f, "max_duration"))
    else if i == 9 then EmitIf(Truthy(Field(f, "sort_by")), Field(f, "sort_by"))
    else if i == 10 then EmitIf(Field(f, "order") != Str("desc"), Field(f, "order"))
    else if i == 11 then EmitIf(Truthy(Field(f, "query")), Field(f, "query"))
    else if i == 12 then Some(IntToString(if f.page != 0 then f.page else 1))
    else Some(IntToString(if f.pageSize != 0 then f.pageSize else PageSize))
  }

  /** A fresh `URLSearchParams` after one conditional `set` per key: the pair
      `(keys[i], v)` for every `values[i] == Some(v)`, in key order. */
  function Emitted(keys: seq<string>, values: seq<Option<string>>): Query
    requires |keys| == |values|
    decreases |keys|
  {
    if keys == [] then []
    else
      var n := |keys| - 1;
      Emitted(keys[..n], values[..n]) + match values[n] case Some(v) => [(keys[n], v)] case None => []
  }

  /** The query string `handleSearch` navigates to; `set` never names a key
      twice. */
  function SearchSpec(f: Filters, genres: seq<nat>, actors: seq<nat>): (q: Query)
    ensures Distinct(KeysOf(q))
  {
    SearchKeysDistinct();
    EmittedKeys(SearchKeys, SearchRules(f, genres, actors));
    Emitted(SearchKeys, SearchRules(f, genres, actors))
  }

  lemma SearchKeysDistinct()
    ensures Distinct(SearchKeys)
  {}

  /** The last key decides whether one more pair is appended. */
  lemma EmittedLast(keys: seq<string>, values: seq<Option<string>>)
    requires |keys| == |values| > 0
    ensures var n := |keys| - 1;
      Emitted(keys, values) == Emitted(keys[..n], values[..n]) + match values[n] case Some(v) => [(keys[n], v)] case None => []
  {}

  /** Nothing is emitted when every value is `None`. */
  lemma {:induction false} EmittedNone(keys: seq<string>, values: seq<Option<string>>)
    requires |keys| == |values| && forall i :: 0 <= i < |values| ==> values[i].None?
    ensures Emitted(keys, values) == []
    decreases |keys|
  {
    if keys != [] {
      EmittedNone(keys[..|keys| - 1], values[..|values| - 1]);
    }
  }

  /** The emitted keys come from `keys`, in their order; with distinct keys
      each appears at most once. */
  lemma {:induction false} EmittedKeys(keys: seq<string>, values: seq<Option<string>>)
    requires |keys| == |values|
    ensures var ks := KeysOf(Emitted(keys, values));
      && IsSubsequence(ks, keys) && (forall k :: k in ks ==> k in keys)
      && (Distinct(keys) ==> Distinct(ks))
    decreases |keys|
  {
    if keys != [] {
      var n := |keys| - 1;
      var init, k := keys[..n], keys[n];
      assert keys == init + [k];
      EmittedKeys(init, values[..n]);
      EmittedLast(keys, values);
      var q0 := Emitted(init, values[..n]);
      match values[n]
      case Some(v) =>
        assert Emitted(keys, values) == q0 + [(k, v)];
        assert KeysOf(q0 + [(k, v)]) == KeysOf(q0) + [k];
        SubsequenceSnoc(KeysOf(q0), init, k);
        if Distinct(keys) {
          assert k !in init;
          assert k !in KeysOf(q0);
        }
      case None =>
        assert Emitted(keys, values) == q0;
        SubsequenceExtend(KeysOf(q0), init, k);
    }
  }

  /** With distinct keys, key `keys[i]` of the emitted query holds
      `values[i]`, and no other key appears. */
  lemma {:induction false} EmittedGet(keys: seq<string>, values: seq<Option<string>>)
    requires |keys| == |values| && Distinct(keys)
    ensures var q := Emitted(keys, values);
      && (forall i :: 0 <= i < |keys| ==> Get(q, keys[i]) == values[i])
      && forall k :: k !in keys ==> Get(q, k) == None
    decreases |keys|
  {
    if keys != [] {
      var n := |keys| - 1;
      var init, k := keys[..n], keys[n];
      assert keys == init + [k];
      assert k !in init;
      EmittedGet(init, values[..n]);
      EmittedKeys(init, values[..n]);
      EmittedLast(keys, values);
      var q0 := Emitted(init, values[..n]);
      assert k !in KeysOf(q0);
      match values[n]
      case Some(v) =>
        assert Emitted(keys, values) == q0 + [(k, v)];
        AppendGet(q0, k, v);
      case None =>
        assert Emitted(keys, values) == q0;
    }
  }

  lemma {:induction false} SubsequenceSnoc<T>(r: seq<T>, s: seq<T>, x: T)
    requires IsSubsequence(r, s)
    ensures IsSubsequence(r + [x], s + [x])
    decreases |s|
  {
    if r == [] {
      assert r + [x] == [x];
      SubsequenceOfAny([x], s + [x]);
    } else {
      assert s != [];
      assert (r + [x])[1..] == r[1..] + [x];
      assert (s + [x])[1..] == s[1..] + [x];
      if r[0] == s[0] {
        SubsequenceSnoc(r[1..], s[1..], x);
      } else {
        SubsequenceSnoc(r, s[1..], x);
      }
    }
  }

  lemma {:induction false} SubsequenceOfAny<T>(r: seq<T>, s: seq<T>)
    requires |r| == 1 && s != [] && s[|s| - 1] == r[0]
    ensures IsSubsequence(r, s)
    decreases |s|
  {
    if r[0] != s[0] {
      SubsequenceOfAny(r, s[1..]);
    } else {
      assert r[1..] == [];
    }
  }

  lemma {:induction false} SubsequenceExtend<T>(r: seq<T>, s: seq<T>, x: T)
    requires IsSubsequence(r, s)
    ensures IsSubsequence(r, s + [x])
    decreases |s|
  {
    if r != [] {
      assert s != [];
      assert (s + [x])[1..] == s[1..] + [x];
      if r[0] == s[0] {
        SubsequenceExtend(r[1..], s[1..], x);
      } else {
        SubsequenceExtend(r, s[1..], x);
      }
    }
  }

  /** The keys of the query `handleSearch` builds follow the fixed order
      genre_ids, actor_ids, producer, min_rating, max_rating, min_date,
      max_date, min_duration, max_duration, sort_by, order, query, page,
      page_size; the key at position `i` holds what rule `i` gives, and
      no other key appears. */
  lemma SearchSpecShape(f: Filters, genres: seq<nat>, actors: seq<nat>)
    ensures var q := SearchSpec(f, genres, actors);
      && IsSubsequence(KeysOf(q), SearchKeys)
      && (forall i :: 0 <= i < |SearchKeys| ==> Get(q, SearchKeys[i]) == SearchRule(f, genres, actors, i))
      && forall k :: k !in SearchKeys ==> Get(q, k) == None
  {
    SearchKeysDistinct();
    EmittedKeys(SearchKeys, SearchRules(f, genres, actors));
    EmittedGet(SearchKeys, SearchRules(f, genres, actors));
  }

  /** The key at position `i` of the apply order holds what rule `i` gives. */
  lemma SearchSpecAt(f: Filters, genres: seq<nat>, actors: seq<nat>, i: nat)
    requires i < |SearchKeys|
    ensures Get(SearchSpec(f, genres, actors), SearchKeys[i]) == SearchRule(f, genres, actors, i)
  {
    SearchKeysDistinct();
    EmittedGet(SearchKeys, SearchRules(f, genres, actors));
  }

  /** Parsing the query `handleSearch` built reads back, under every key but
      the pagination, exactly the string that was emitted (nothing when the
      key was left out), and reads back the emitted page. */
  lemma SearchRoundTrip(f: Filters, genres: seq<nat>, actors: seq<nat>, p: Params)
    requires ParsedFrom(p, SearchSpec(f, genres, actors))
    ensures p.page == if f.page != 0 then f.page else 1
    ensures forall k :: k !in PaginationKeys ==> Get(p.entries, k) == Get(SearchSpec(f, genres, actors), k)
  {
    var q := SearchSpec(f, genres, actors);
    SearchSpecAt(f, genres, actors, 12);
    assert SearchKeys[12] == "page";
    PageParamOfRendered(q, if f.page != 0 then f.page else 1);
    forall k | k !in PaginationKeys ensures Get(p.entries, k) == Get(q, k) {
      LastValueOfDistinct(q, k);
    }
  }

  /** Merging the parse of a query with distinct keys: a value field holds
      the query's string for it, or keeps its previous value. */
  lemma MergeDistinctField(prev: Filters, p: Params, q: Query, k: string)
    requires WellFormed(prev) && ParsedFrom(p, q) && Distinct(KeysOf(q)) && k in ValueKeys
    ensures Field(Merge(prev, p), k) == match Get(q, k) case Some(v) => Str(v) case None => Field(prev, k)
  {
    MergeSpec(prev, p, q);
    LastValueOfDistinct(q, k);
  }

  lemma SearchKeysDeclared()
    ensures forall i :: 0 <= i < 12 ==> SearchKeys[i] in ValueKeys
  {}

  /** After applying and parsing the resulting location over any well-formed
      record, field `SearchKeys[i]` holds the string rule `i` emitted, and
      keeps its previous value when nothing was emitted for it. */
  lemma SearchThenParse(prev: Filters, f: Filters, genres: seq<nat>, actors: seq<nat>, p: Params)
    requires WellFormed(prev) && ParsedFrom(p, SearchSpec(f, genres, actors))
    ensures var r := Merge(prev, p);
      && r.page == (if f.page != 0 then f.page else 1) && r.pageSize == PageSize
      && forall i :: 0 <= i < 12 ==>
           Field(r, SearchKeys[i]) == match SearchRule(f, genres, actors, i)
                                        case Some(v) => Str(v) case None => Field(prev, SearchKeys[i])
  {
    var q := SearchSpec(f, genres, actors);
    SearchRoundTrip(f, genres, actors, p);
    SearchKeysDeclared();
    MergeSpec(prev, p, q);
    forall i | 0 <= i < 12
      ensures Field(Merge(prev, p), SearchKeys[i]) == match SearchRule(f, genres, actors, i)
                case Some(v) => Str(v) case None => Field(prev, SearchKeys[i])
    {
      MergeDistinctField(prev, p, q, SearchKeys[i]);
      SearchSpecAt(f, genres, actors, i);
    }
  }

  /** With the default record and no selection, applying emits only the
      pagination. */
  lemma SearchDefaults()
    ensures SearchSpec(DefaultFilters, [], []) == [("page", "1"), ("page_size", "9")]
  {
    var rules := SearchRules(DefaultFilters, [], []);
    DefaultNumbers();
    assert forall i :: 0 <= i < 12 ==> rules[i] == None;
    assert rules[12] == Some("1") && rules[13] == Some("9");
    EmittedLast(SearchKeys, rules);
    EmittedLast(SearchKeys[..13], rules[..13]);
    assert SearchKeys[..13][..12] == SearchKeys[..12] && rules[..13][..12] == rules[..12];
    EmittedNone(SearchKeys[..12], rules[..12]);
    assert Emitted(SearchKeys[..13], rules[..13]) == [("page", "1")];
  }

  // ---------------------------------------------------------------- page change (handlePageChange)

  /** `String(v)` of the record's `i`-th field in the object handed to
      `URLSearchParams`: the page is the new page, the page size falls back
      to 9. */
  function RecordText(f: Filters, newPage: int, i: nat): string
    requires i < |FilterKeys|
  {
    if i == 11 then IntToString(newPage)
    else if i == 12 then IntToString(if f.pageSize != 0 then f.pageSize else PageSize)
    else Stringify(Field(f, FilterKeys[i]))
  }

  /** `new URLSearchParams({...cleanedFilters, page, page_size})`: one pair
      per field of the record, in declaration order, then the keys the URL
      added. */
  function RecordEntries(f: Filters, newPage: int): (q: Query)
    ensures KeysOf(q) == FilterKeys + KeysOf(f.extra)
  {
    var own := seq(|FilterKeys|, i requires 0 <= i < |FilterKeys| => (FilterKeys[i], RecordText(f, newPage, i)));
    assert KeysOf(own) == FilterKeys;
    own + f.extra
  }

  /** The query string `handlePageChange` navigates to: every field, the new
      page, and the selections in place of the id fields when non-empty. */
  function PageChangeSpec(f: Filters, newPage: int, genres: seq<nat>, actors: seq<nat>): (q: Query)
    ensures |genres| > 0 ==> Get(q, "genre_ids") == Some(JoinIds(genres))
    ensures |actors| > 0 ==> Get(q, "actor_ids") == Some(JoinIds(actors))
    ensures forall k :: k != "genre_ids" && k != "actor_ids" ==> Get(q, k) == Get(RecordEntries(f, newPage), k)
  {
    var q0 := RecordEntries(f, newPage);
    var q1 := if |genres| > 0 then SetParam(q0, "genre_ids", JoinIds(genres)) else q0;
    if |actors| > 0 then SetParam(q1, "actor_ids", JoinIds(actors)) else q1
  }

  /** What the page-change query holds under the `i`-th field. */
  function PageChangeText(f: Filters, newPage: int, genres: seq<nat>, actors: seq<nat>, i: nat): string
    requires i < |FilterKeys|
  {
    if i == 0 && |genres| > 0 then JoinIds(genres)
    else if i == 1 && |actors| > 0 then JoinIds(actors)
    else RecordText(f, newPage, i)
  }

  lemma FilterKeysDistinct()
    ensures Distinct(FilterKeys)
    ensures forall k :: k in FilterKeys <==> Declared(k)
  {}

  /** On a well-formed record the entries name each key once. */
  lemma RecordEntriesDistinct(f: Filters, newPage: int)
    requires WellFormed(f)
    ensures Distinct(KeysOf(RecordEntries(f, newPage)))
  {
    FilterKeysDistinct();
    DistinctAppend(FilterKeys, KeysOf(f.extra));
  }

  /** The `i`-th field holds its text. */
  lemma RecordEntriesAt(f: Filters, newPage: int, i: nat)
    requires WellFormed(f) && i < |FilterKeys|
    ensures Get(RecordEntries(f, newPage), FilterKeys[i]) == Some(RecordText(f, newPage, i))
  {
    var q := RecordEntries(f, newPage);
    var own := q[..|FilterKeys|];
    assert q == own + f.extra;
    FilterKeysDistinct();
    assert KeysOf(own) == FilterKeys;
    GetAppend(own, f.extra, FilterKeys[i]);
    GetSkipsOthers(own, FilterKeys[i], i);
  }

  /** A key the record does not declare holds its added value. */
  lemma RecordEntriesExtra(f: Filters, newPage: int, k: string)
    requires k !in FilterKeys
    ensures Get(RecordEntries(f, newPage), k) == Get(f.extra, k)
  {
    var q := RecordEntries(f, newPage);
    var own := q[..|FilterKeys|];
    assert q == own + f.extra;
    assert KeysOf(own) == FilterKeys;
    GetAppend(own, f.extra, k);
  }

  /** Two key lists with distinct keys and no key in common concatenate to a
      list with distinct keys. */
  lemma DistinctAppend(a: seq<string>, b: seq<string>)
    requires Distinct(a) && Distinct(b) && forall k :: k in b ==> k !in a
    ensures Distinct(a + b)
  {
    forall i, j | 0 <= i < j < |a + b| ensures (a + b)[i] != (a + b)[j] {
      if j < |a| {
        assert (a + b)[i] == a[i] && (a + b)[j] == a[j];
      } else if i < |a| {
        assert (a + b)[i] == a[i] && (a + b)[j] == b[j - |a|] && b[j - |a|] in b;
      } else {
        assert (a + b)[i] == b[i - |a|] && (a + b)[j] == b[j - |a|];
      }
    }
  }

  /** `if (condition) params.set(k, v)` on a query that already names `k`
      once: the keys stay where they were, only `k`'s value may change. */
  lemma SetExistingWhen(q: Query, condition: bool, k: string, v: string)
    requires Distinct(KeysOf(q)) && k in KeysOf(q)
    ensures var r := if condition then SetParam(q, k, v) else q;
      && KeysOf(r) == KeysOf(q)
      && Get(r, k) == (if condition then Some(v) else Get(q, k))
      && forall k' :: k' != k ==> Get(r, k') == Get(q, k')
  {
    if condition {
      SetParamInPlace(q, k, v);
    }
  }

  lemma FilterKeyNames()
    ensures FilterKeys[0] == "genre_ids" && FilterKeys[1] == "actor_ids"
    ensures FilterKeys[11] == "page" && FilterKeys[12] == "page_size"
    ensures forall i :: 2 <= i < |FilterKeys| ==> FilterKeys[i] != "genre_ids" && FilterKeys[i] != "actor_ids"
  {}

  /** The page-change query keeps the entries' keys: every field of the
      record once, in declaration order, then the keys the URL added. */
  lemma PageChangeKeys(f: Filters, newPage: int, genres: seq<nat>, actors: seq<nat>)
    requires WellFormed(f)
    ensures var q := PageChangeSpec(f, newPage, genres, actors);
      Distinct(KeysOf(q)) && KeysOf(q) == FilterKeys + KeysOf(f.extra)
  {
    FilterKeyNames();
    var q0 := RecordEntries(f, newPage);
    RecordEntriesDistinct(f, newPage);
    var q1 := if |genres| > 0 then SetParam(q0, "genre_ids", JoinIds(genres)) else q0;
    assert KeysOf(q0)[0] == "genre_ids" && KeysOf(q0)[1] == "actor_ids";
    SetExistingWhen(q0, |genres| > 0, "genre_ids", JoinIds(genres));
    SetExistingWhen(q1, |actors| > 0, "actor_ids", JoinIds(actors));
  }

  /** The `i`-th field of the page-change query: the new page, the page size
      (or 9), the joined selection for a non-empty id list, and otherwise
      the field's current text, defaults included. */
  lemma PageChangeAt(f: Filters, newPage: int, genres: seq<nat>, actors: seq<nat>, i: nat)
    requires WellFormed(f) && i < |FilterKeys|
    ensures Get(PageChangeSpec(f, newPage, genres, actors), FilterKeys[i]) == Some(PageChangeText(f, newPage, genres, actors, i))
  {
    FilterKeyNames();
    var q0 := RecordEntries(f, newPage);
    RecordEntriesDistinct(f, newPage);
    RecordEntriesAt(f, newPage, i);
    var q1 := if |genres| > 0 then SetParam(q0, "genre_ids", JoinIds(genres)) else q0;
    assert KeysOf(q0)[0] == "genre_ids" && KeysOf(q0)[1] == "actor_ids";
    SetExistingWhen(q0, |genres| > 0, "genre_ids", JoinIds(genres));
    SetExistingWhen(q1, |actors| > 0, "actor_ids", JoinIds(actors));
  }

  /** A key the record does not declare keeps the value the URL gave it. */
  lemma PageChangeExtra(f: Filters, newPage: int, genres: seq<nat>, actors: seq<nat>, k: string)
    requires WellFormed(f) && k !in FilterKeys
    ensures Get(PageChangeSpec(f, newPage, genres, actors), k) == Get(f.extra, k)
  {
    FilterKeyNames();
    var q0 := RecordEntries(f, newPage);
    RecordEntriesDistinct(f, newPage);
    RecordEntriesExtra(f, newPage, k);
    var q1 := if |genres| > 0 then SetParam(q0, "genre_ids", JoinIds(genres)) else q0;
    assert KeysOf(q0)[0] == "genre_ids" && KeysOf(q0)[1] == "actor_ids";
    SetExistingWhen(q0, |genres| > 0, "genre_ids", JoinIds(genres));
    SetExistingWhen(q1, |actors| > 0, "actor_ids", JoinIds(actors));
  }

  /** Parsing the location `handlePageChange` built reads back the new page
      (when it is not 0) and, under every other key, the text the query
      holds. */
  lemma PageChangeRoundTrip(f: Filters, newPage: int, genres: seq<nat>, actors: seq<nat>, p: Params)
    requires WellFormed(f) && newPage != 0 && ParsedFrom(p, PageChangeSpec(f, newPage, genres, actors))
    ensures p.page == newPage
    ensures forall k :: k !in PaginationKeys ==> Get(p.entries, k) == Get(PageChangeSpec(f, newPage, genres, actors), k)
  {
    var q := PageChangeSpec(f, newPage, genres, actors);
    PageChangeKeys(f, newPage, genres, actors);
    PageChangeAt(f, newPage, genres, actors, 11);
    FilterKeyNames();
    PageParamOfRendered(q, newPage);
    forall k | k !in PaginationKeys ensures Get(p.entries, k) == Get(q, k) {
      LastValueOfDistinct(q, k);
    }
  }

  /** The default record's numeric fields. */
  lemma DefaultNumbers()
    ensures Field(DefaultFilters, "min_rating") == Num(0) && Field(DefaultFilters, "max_rating") == Num(100)
    ensures Field(DefaultFilters, "min_duration") == Num(0) && Field(DefaultFilters, "max_duration") == Num(300)
  {}

  lemma FilterKeysDeclared()
    ensures forall i :: 0 <= i < |FilterKeys| && i != 11 && i != 12 ==> FilterKeys[i] in ValueKeys
  {}

  /** After a page change and parsing the resulting location over any
      well-formed record, every value field holds the text the page-change
      query gave it. */
  lemma PageChangeThenParse(prev: Filters, f: Filters, newPage: int, genres: seq<nat>, actors: seq<nat>, p: Params)
    requires WellFormed(prev) && WellFormed(f) && newPage != 0
    requires ParsedFrom(p, PageChangeSpec(f, newPage, genres, actors))
    ensures var r := Merge(prev, p);
      && r.page == newPage && r.pageSize == PageSize
      && forall i :: 0 <= i < |FilterKeys| && i != 11 && i != 12 ==>
           Field(r, FilterKeys[i]) == Str(PageChangeText(f, newPage, genres, actors, i))
  {
    var q := PageChangeSpec(f, newPage, genres, actors);
    PageChangeKeys(f, newPage, genres, actors);
    PageChangeRoundTrip(f, newPage, genres, actors, p);
    MergeSpec(prev, p, q);
    FilterKeysDeclared();
    forall i | 0 <= i < |FilterKeys| && i != 11 && i != 12
      ensures Field(Merge(prev, p), FilterKeys[i]) == Str(PageChangeText(f, newPage, genres, actors, i))
    {
      MergeDistinctField(prev, p, q, FilterKeys[i]);
      PageChangeAt(f, newPage, genres, actors, i);
    }
  }

  /** From the default record, a page change writes the numeric defaults
      as their decimal text. */
  lemma DefaultPageChangeTexts(newPage: int)
    ensures PageChangeText(DefaultFilters, newPage, [], [], 3) == "0"
    ensures PageChangeText(DefaultFilters, newPage, [], [], 4) == "100"
    ensures PageChangeText(DefaultFilters, newPage, [], [], 7) == "0"
    ensures PageChangeText(DefaultFilters, newPage, [], [], 8) == "300"
  {
    DefaultNumbers();
    assert IntToString(0) == "0" && IntToString(100) == "100" && IntToString(300) == "300";
  }

  /** Applying a record whose numeric fields hold strings emits them, even
      when they spell the default. */
  lemma SearchEmitsStrings(f: Filters, genres: seq<nat>, actors: seq<nat>, i: nat, text: string)
    requires i in {3, 4, 7, 8} && Field(f, SearchKeys[i]) == Str(text)
    ensures Get(SearchSpec(f, genres, actors), SearchKeys[i]) == Some(text)
  {
    SearchSpecAt(f, genres, actors, i);
  }

  /** The numeric fields sit at the same positions in both key orders. */
  lemma NumericKeyNames()
    ensures SearchKeys[3] == FilterKeys[3] == "min_rating" && SearchKeys[4] == FilterKeys[4] == "max_rating"
    ensures SearchKeys[7] == FilterKeys[7] == "min_duration" && SearchKeys[8] == FilterKeys[8] == "max_duration"
  {}

  /** The typing hazard: after a page change from the default record, the
      parsed fields are strings, so the next apply emits the numeric
      defaults it would otherwise leave out. */
  lemma DefaultsReappearAfterPageChange(p: Params)
    requires ParsedFrom(p, PageChangeSpec(DefaultFilters, 2, [], []))
    ensures var f := Merge(DefaultFilters, p);
      && Get(SearchSpec(f, [], []), "min_rating") == Some("0")
      && Get(SearchSpec(f, [], []), "max_rating") == Some("100")
      && Get(SearchSpec(f, [], []), "min_duration") == Some("0")
      && Get(SearchSpec(f, [], []), "max_duration") == Some("300")
  {
    DefaultWellFormed();
    DefaultPageChangeTexts(2);
    PageChangeThenParse(DefaultFilters, DefaultFilters, 2, [], [], p);
    var f := Merge(DefaultFilters, p);
    NumericKeyNames();
    SearchEmitsStrings(f, [], [], 3, "0");
    SearchEmitsStrings(f, [], [], 4, "100");
    SearchEmitsStrings(f, [], [], 7, "0");
    SearchEmitsStrings(f, [], [], 8, "300");
  }

  /** `toggleSortOrder`: "asc" becomes "desc", anything else "asc". */
  function ToggleOrder(f: Filters): (r: Filters)
    ensures Field(f, "order") == Str("asc") ==> Field(r, "order") == Str("desc")
    ensures Field(f, "order") != Str("asc") ==> Field(r, "order") == Str("asc")
    ensures Field(r, "order") != Field(f, "order")
    ensures forall k :: k != "order" ==> Field(r, k) == Field(f, k)
    ensures r.page == f.page && r.pageSize == f.pageSize && r.extra == f.extra
    ensures WellFormed(f) ==> WellFormed(r)
  {
    f.(values := f.values["order" := if Field(f, "order") == Str("asc") then Str("desc") else Str("asc")])
  }

  /** Toggling twice from either order restores the record. */
  lemma ToggleOrderTwice(f: Filters)
    requires WellFormed(f) && Field(f, "order") in {Str("asc"), Str("desc")}
    ensures ToggleOrder(ToggleOrder(f)) == f
  {
    assert ToggleOrder(ToggleOrder(f)).values == f.values;
  }
}
