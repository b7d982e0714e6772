/** The product listing page's filter state: building the URL query string
    from the selected filters, and toggling one option of one section. */
module Listing {

  import opened Text

  /** `encodeURIComponent` leaves these characters as they are. */
  predicate Unreserved(c: char) {
    ('A' <= c <= 'Z') || ('a' <= c <= 'z') || ('0' <= c <= '9') ||
    c == '-' || c == '_' || c == '.' || c == '!' || c == '~' || c == '*' || c == '\'' || c == '(' || c == ')'
  }

  /** The UTF-8 bytes of one Unicode scalar value. */
  function Utf8(c: char): (bytes: seq<int>)
    ensures 1 <= |bytes| <= 4
    ensures forall i :: 0 <= i < |bytes| ==> 0 <= bytes[i] < 256
    ensures (c as int) < 0x80 ==> bytes == [c as int]
  {
    var n := c as int;
    if n < 0x80 then [n]
    else if n < 0x800 then [0xC0 + n / 64, 0x80 + n % 64]
    else if n < 0x10000 then [0xE0 + n / 4096, 0x80 + (n / 64) % 64, 0x80 + n % 64]
    else [0xF0 + n / 262144, 0x80 + (n / 4096) % 64, 0x80 + (n / 64) % 64, 0x80 + n % 64]
  }

  function HexDigit(d: int): (c: char)
    requires 0 <= d < 16
    ensures ('0' <= c <= '9') || ('A' <= c <= 'F')
  {
    if d < 10 then ('0' as int + d) as char else ('A' as int + d - 10) as char
  }

  /** `%XX` with upper-case hex digits. */
  function PercentBytes(bytes: seq<int>): (r: string)
    requires forall i :: 0 <= i < |bytes| ==> 0 <= bytes[i] < 256
    ensures |r| == 3 * |bytes|
  {
    if bytes == [] then ""
    else ['%', HexDigit(bytes[0] / 16), HexDigit(bytes[0] % 16)] + PercentBytes(bytes[1..])
  }

  function EncodeChar(c: char): string {
    if Unreserved(c) then [c] else PercentBytes(Utf8(c))
  }

  /** `encodeURIComponent(s)`. A Dafny string holds no lone surrogates, so
      the `URIError` the JavaScript function throws for them cannot arise. */
  function EncodeURIComponent(s: string): (r: string)
    ensures |s| <= |r| <= 12 * |s|
    ensures |r| == |s| <==> forall i :: 0 <= i < |s| ==> Unreserved(s[i])
    ensures (forall i :: 0 <= i < |s| ==> Unreserved(s[i])) ==> r == s
  {
    if s == [] then "" else
      var rest := EncodeURIComponent(s[1..]);
      assert forall i :: 1 <= i < |s| ==> s[i] == s[1..][i - 1];
      assert (forall i :: 0 <= i < |s| ==> Unreserved(s[i])) ==> [s[0]] + s[1..] == s;
      EncodeChar(s[0]) + rest
  }

  /** The `key=value` pair one section contributes. */
  function Pair(key: string, values: seq<string>): string {
    key + "=" + EncodeURIComponent(Join(values, ","))
  }

  /** The filter state as values: section keys in insertion order with their options. */
  type FilterState = seq<(string, seq<string>)>

  /** The pairs `createUrlQueryString` pushes: one per section with options. */
  function Pairs(state: FilterState): seq<string> {
    if state == [] then []
    else
      var last := state[|state| - 1];
      Pairs(state[..|state| - 1]) + (if |last.1| > 0 then [Pair(last.0, last.1)] else [])
  }

  function QueryOf(state: FilterState): string {
    Join(Pairs(state), "&")
  }

  /** `values.indexOf(x)`. */
  function Position(values: seq<string>, x: string): (k: int)
    ensures -1 <= k < |values|
    ensures k == -1 <==> x !in values
    ensures k >= 0 ==> values[k] == x && x !in values[..k]
  {
    if values == [] then -1
    else if values[0] == x then 0
    else
      var k := Position(values[1..], x);
      if k == -1 then -1 else k + 1
  }

  /** `Object.keys(filters).indexOf(key)`. */
  function KeyIndex(state: FilterState, key: string): (k: int)
    ensures -1 <= k < |state|
    ensures k == -1 <==> forall i :: 0 <= i < |state| ==> state[i].0 != key
    ensures k >= 0 ==> state[k].0 == key
    ensures k >= 0 ==> forall i :: 0 <= i < k ==> state[i].0 != key
  {
    if state == [] then -1
    else if state[0].0 == key then 0
    else
      var k := KeyIndex(state[1..], key);
      if k == -1 then -1 else k + 1
  }

  /** An absent option is appended, a present one is spliced out. */
  function Toggle(values: seq<string>, option: string): seq<string> {
    var k := Position(values, option);
    if k == -1 then values + [option] else values[..k] + values[k + 1..]
  }

  /** The state `handleFilter` leaves. */
  function Toggled(state: FilterState, sectionId: string, optionId: string): FilterState {
    if optionId == "" then state
    else
      var k := KeyIndex(state, sectionId);
      if k == -1 then state + [(sectionId, [optionId])]
      else state[k := (sectionId, Toggle(state[k].1, optionId))]
  }

  /** One section's option array. The component's state object and the
      shallow copy `handleFilter` makes of it hold the same arrays. */
  class OptionList {
    var items: seq<string>

    constructor (initial: seq<string>)
      ensures items == initial
    {
      items := initial;
    }
  }

  datatype Section = Section(key: string, options: OptionList)

  function Lists(filters: seq<Section>): set<OptionList> {
    set i | 0 <= i < |filters| :: filters[i].options
  }

  /** Each section holds its own array (they are built one per section). */
  predicate DistinctLists(filters: seq<Section>) {
    forall i, j :: 0 <= i < j < |filters| ==> filters[i].options != filters[j].options
  }

  /** The values the filter objects currently hold. */
  function Snapshot(filters: seq<Section>): (s: FilterState)
    reads Lists(filters)
    ensures |s| == |filters|
    ensures forall i :: 0 <= i < |filters| ==> s[i] == (filters[i].key, filters[i].options.items)
  {
    seq(|filters|, i requires 0 <= i < |filters| reads Lists(filters) => (filters[i].key, filters[i].options.items))
  }

  /** `createUrlQueryString`. */
  method CreateUrlQueryString(filters: seq<Section>) returns (q: string)
    ensures q == QueryOf(Snapshot(filters))
  {
    var queryString: seq<string> := [];
    for i := 0 to |filters|
      invariant queryString == Pairs(Snapshot(filters)[..i])
    {
      assert Snapshot(filters)[..i + 1][..i] == Snapshot(filters)[..i];
      var values := filters[i].options.items;
      if |values| > 0 {
        var paramValue := Join(values, ",");
        queryString := queryString + [filters[i].key + "=" + EncodeURIComponent(paramValue)];
      }
    }
    assert Snapshot(filters)[..|filters|] == Snapshot(filters);
    q := Join(queryString, "&");
  }

  /** `handleFilter`. The returned copy lists the same arrays as `filters`, so
      toggling inside an existing section also changes the state it copied. */
  method HandleFilter(filters: seq<Section>, sectionId: string, optionId: string) returns (copy: seq<Section>)
    requires DistinctLists(filters)
    modifies Lists(filters)
    ensures Snapshot(copy) == Toggled(old(Snapshot(filters)), sectionId, optionId)
    ensures optionId == "" ==> copy == filters && Snapshot(filters) == old(Snapshot(filters))
    ensures optionId != "" && KeyIndex(old(Snapshot(filters)), sectionId) >= 0 ==>
      copy == filters && Snapshot(filters) == Snapshot(copy)
    ensures optionId != "" && KeyIndex(old(Snapshot(filters)), sectionId) == -1 ==>
      && |copy| == |filters| + 1 && copy[..|filters|] == filters && fresh(copy[|filters|].options)
      && Snapshot(filters) == old(Snapshot(filters))
    ensures DistinctLists(copy)
  {
    if optionId == "" {
      return filters;
    }
    copy := filters;
    var currentIndex := KeyIndex(Snapshot(copy), sectionId);
    if currentIndex == -1 {
      var list := new OptionList([optionId]);
      copy := copy + [Section(sectionId, list)];
      assert copy[..|filters|] == filters;
    } else {
      var list := copy[currentIndex].options;
      var currentOptionIndex := Position(list.items, optionId);
      if currentOptionIndex == -1 {
        list.items := list.items + [optionId];
      } else {
        list.items := list.items[..currentOptionIndex] + list.items[currentOptionIndex + 1..];
      }
    }
  }
}

/** What the query string and the toggle guarantee. */
module ListingProperties {

  import opened Text
  import opened Listing

  /** Every character `encodeURIComponent` emits is unreserved, a `%` or an
      upper-case hex digit, so no value can inject a `&`, `=` or `,`. */
  lemma {:induction false} EncodedIsSafe(s: string)
    ensures forall i :: 0 <= i < |EncodeURIComponent(s)| ==>
      var c := EncodeURIComponent(s)[i];
      Unreserved(c) || c == '%' || ('A' <= c <= 'F')
  {
    if s != [] {
      EncodedIsSafe(s[1..]);
      if !Unreserved(s[0]) {
        PercentBytesAreSafe(Utf8(s[0]));
      }
    }
  }

  lemma {:induction false} PercentBytesAreSafe(bytes: seq<int>)
    requires forall i :: 0 <= i < |bytes| ==> 0 <= bytes[i] < 256
    ensures forall i :: 0 <= i < |PercentBytes(bytes)| ==>
      var c := PercentBytes(bytes)[i];
      c == '%' || ('0' <= c <= '9') || ('A' <= c <= 'F')
  {
    if bytes != [] {
      PercentBytesAreSafe(bytes[1..]);
    }
  }

  /** The pairs of two states one after the other. */
  lemma {:induction false} PairsAppend(a: FilterState, b: FilterState)
    ensures Pairs(a + b) == Pairs(a) + Pairs(b)
  {
    if b == [] {
      assert a + b == a;
    } else {
      var b' := b[..|b| - 1];
      assert (a + b)[..|a + b| - 1] == a + b';
      PairsAppend(a, b');
    }
  }

  /** A pair is never empty: it holds at least its `=`. */
  lemma {:induction false} JoinEmpty(parts: seq<string>)
    requires forall i :: 0 <= i < |parts| ==> parts[i] != ""
    ensures Join(parts, "&") == "" <==> parts == []
  {
    if |parts| > 1 {
      assert |Join(parts, "&")| >= |parts[0]|;
    }
  }

  lemma {:induction false} PairsNonEmpty(state: FilterState)
    ensures forall i :: 0 <= i < |Pairs(state)| ==> Pairs(state)[i] != ""
    ensures Pairs(state) == [] <==> forall i :: 0 <= i < |state| ==> state[i].1 == []
  {
    if state != [] {
      var init := state[..|state| - 1];
      PairsNonEmpty(init);
      assert forall i :: 0 <= i < |init| ==> init[i] == state[i];
    }
  }

  /** The query string is empty exactly when no section has an option; in
      particular empty filters give "". */
  lemma EmptyQueryIffNoOptions(state: FilterState)
    ensures QueryOf(state) == "" <==> forall i :: 0 <= i < |state| ==> state[i].1 == []
  {
    PairsNonEmpty(state);
    JoinEmpty(Pairs(state));
  }

  /** A section whose options were all removed contributes nothing. */
  lemma EmptySectionSkipped(a: FilterState, key: string, b: FilterState)
    ensures QueryOf(a + [(key, [])] + b) == QueryOf(a + b)
  {
    var empty: FilterState := [(key, [])];
    PairsAppend(a + empty, b);
    PairsAppend(a, empty);
    PairsAppend(a, b);
    assert Pairs(empty) == [] by {
      assert empty[..0] == [];
    }
    assert Pairs(a + empty) == Pairs(a);
    assert a + [(key, [])] + b == a + empty + b;
  }

  /** Toggling twice an option of a section that was absent leaves that
      section empty, which the query string skips. */
  lemma ToggleTwiceAbsentSection(state: FilterState, sectionId: string, optionId: string)
    requires optionId != "" && KeyIndex(state, sectionId) == -1
    ensures Toggled(Toggled(state, sectionId, optionId), sectionId, optionId) == state + [(sectionId, [])]
    ensures QueryOf(Toggled(Toggled(state, sectionId, optionId), sectionId, optionId)) == QueryOf(state)
  {
    var once := Toggled(state, sectionId, optionId);
    assert once == state + [(sectionId, [optionId])];
    assert KeyIndex(once, sectionId) == |state| by {
      forall i | 0 <= i < |state|
        ensures once[i].0 != sectionId
      {
        assert once[i] == state[i];
      }
      assert once[|state|].0 == sectionId;
    }
    assert Toggle([optionId], optionId) == [] by {
      assert Position([optionId], optionId) == 0;
      assert [optionId][..0] + [optionId][1..] == [];
    }
    assert Toggled(once, sectionId, optionId) == once[|state| := (sectionId, [])];
    assert once[|state| := (sectionId, [])] == state + [(sectionId, [])];
    EmptySectionSkipped(state, sectionId, []);
    assert state + [(sectionId, [])] + [] == state + [(sectionId, [])];
    assert state + [] == state;
  }

  /** Toggling twice an option its section did not list gives back the state itself. */
  lemma ToggleTwiceUnselectedOption(state: FilterState, sectionId: string, optionId: string)
    requires optionId != "" && KeyIndex(state, sectionId) >= 0
    requires optionId !in state[KeyIndex(state, sectionId)].1
    ensures Toggled(Toggled(state, sectionId, optionId), sectionId, optionId) == state
  {
    var k := KeyIndex(state, sectionId);
    var values := state[k].1;
    var once := Toggled(state, sectionId, optionId);
    assert once == state[k := (sectionId, values + [optionId])];
    assert KeyIndex(once, sectionId) == k;
    assert Position(values + [optionId], optionId) == |values| by {
      assert (values + [optionId])[..|values|] == values;
    }
    assert Toggle(values + [optionId], optionId) == values by {
      assert (values + [optionId])[..|values|] == values;
    }
  }

  /** Toggling an option twice restores the query string when the option was
      not selected before: its section was absent (and is left empty) or did
      not list it (and is left as it was). */
  lemma ToggleTwiceRestoresQuery(state: FilterState, sectionId: string, optionId: string)
    requires optionId != ""
    requires KeyIndex(state, sectionId) == -1 || optionId !in state[KeyIndex(state, sectionId)].1
    ensures QueryOf(Toggled(Toggled(state, sectionId, optionId), sectionId, optionId)) == QueryOf(state)
  {
    if KeyIndex(state, sectionId) == -1 {
      ToggleTwiceAbsentSection(state, sectionId, optionId);
    } else {
      ToggleTwiceUnselectedOption(state, sectionId, optionId);
    }
  }

  /** A single section with options gives exactly its own pair. */
  lemma QueryOfOneSection(key: string, values: seq<string>)
    requires values != []
    ensures QueryOf([(key, values)]) == Pair(key, values)
  {
    var state := [(key, values)];
    assert state[..|state| - 1] == [] && state[|state| - 1] == (key, values);
    assert Pairs(state) == Pairs([]) + [Pair(key, values)];
    assert Pairs(state) == [Pair(key, values)];
  }

  /** Two unreserved characters joined by "," encode with the comma as "%2C". */
  lemma EncodeCommaPair(x: char, y: char)
    requires Unreserved(x) && Unreserved(y)
    ensures EncodeURIComponent([x, ',', y]) == [x, '%', '2', 'C', y]
  {
    var s := [x, ',', y];
    assert s[1..] == [',', y] && s[1..][1..] == [y] && [y][1..] == [];
    assert EncodeChar(',') == "%2C" by {
      assert !Unreserved(',');
      assert Utf8(',') == [44];
      assert HexDigit(2) == '2' && HexDigit(12) == 'C';
      assert [44][1..] == [];
      assert PercentBytes([44]) == ['%', '2', 'C'];
    }
    assert EncodeURIComponent([y]) == [y];
    assert EncodeURIComponent([',', y]) == "%2C" + [y];
    assert EncodeURIComponent(s) == [x] + EncodeURIComponent([',', y]);
  }

  /** Toggling a selected option twice takes it out of its place and appends it
      at the end (when it occurs only once, as toggling keeps it). */
  lemma ToggleSelectedTwiceMovesToEnd(values: seq<string>, option: string)
    requires option in values && option !in values[Position(values, option) + 1..]
    ensures var p := Position(values, option);
      Toggle(Toggle(values, option), option) == values[..p] + values[p + 1..] + [option]
  {
    var p := Position(values, option);
    var once := values[..p] + values[p + 1..];
    assert Toggle(values, option) == once;
    assert option !in once by {
      forall i | 0 <= i < |once| ensures once[i] != option {
        if i < p {
          assert once[i] == values[..p][i];
        } else {
          assert once[i] == values[p + 1..][i - p];
        }
      }
    }
  }

  /** Selecting "a" of ["a", "b"] again and then once more leaves ["b", "a"]. */
  lemma ReorderingToggles()
    ensures Toggled(Toggled([("brand", ["a", "b"])], "brand", "a"), "brand", "a") == [("brand", ["b", "a"])]
  {
    assert Position(["a", "b"], "a") == 0;
    assert ["a", "b"][..0] + ["a", "b"][1..] == ["b"];
    assert Toggled([("brand", ["a", "b"])], "brand", "a") == [("brand", ["b"])];
    assert Position(["b"], "a") == -1 by { assert ["b"][1..] == []; }
    assert Toggle(["b"], "a") == ["b", "a"];
    assert KeyIndex([("brand", ["b"])], "brand") == 0;
    assert [("brand", ["b"])][0 := ("brand", ["b", "a"])] == [("brand", ["b", "a"])];
  }

  /** One section holding two one-character unreserved options. */
  lemma QueryOfTwoOptions(key: string, x: char, y: char)
    requires Unreserved(x) && Unreserved(y)
    ensures QueryOf([(key, [[x], [y]])]) == key + "=" + [x, '%', '2', 'C', y]
  {
    var values := [[x], [y]];
    QueryOfOneSection(key, values);
    assert values[1..] == [[y]];
    assert Join(values, ",") == [x] + "," + [y];
    assert [x] + "," + [y] == [x, ',', y];
    EncodeCommaPair(x, y);
  }

  /** The query strings of ["a", "b"] and ["b", "a"] under one key. */
  lemma ReorderedQueries()
    ensures QueryOf([("brand", ["a", "b"])]) == "brand=a%2Cb"
    ensures QueryOf([("brand", ["b", "a"])]) == "brand=b%2Ca"
  {
    assert ["a", "b"] == [['a'], ['b']] && ["b", "a"] == [['b'], ['a']];
    QueryOfTwoOptions("brand", 'a', 'b');
    assert "brand" + "=" + ['a', '%', '2', 'C', 'b'] == "brand=a%2Cb";
    QueryOfTwoOptions("brand", 'b', 'a');
    assert "brand" + "=" + ['b', '%', '2', 'C', 'a'] == "brand=b%2Ca";
  }

  /** When the option was already selected and not last, toggling it twice
      moves it to the end, and the query string changes. */
  lemma ToggleTwiceCanReorder()
    ensures var state := [("brand", ["a", "b"])];
            && Toggled(Toggled(state, "brand", "a"), "brand", "a") == [("brand", ["b", "a"])]
            && QueryOf(state) == "brand=a%2Cb"
            && QueryOf([("brand", ["b", "a"])]) == "brand=b%2Ca"
  {
    ReorderingToggles();
    ReorderedQueries();
  }
}
