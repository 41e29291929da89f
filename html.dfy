/** `_escapeHtml` and the `console.table` string builder `_createHtmlTable`:
    column auto-detection as the sorted union of the rows' own keys, cells
    converted with `_convertToString`, truncated and escaped. */
module Html {
  import opened Text
  import opened Serializer

  // ---- _escapeHtml ----

  /** The five global replacements, ampersand first. */
  function EscapeHtml(s: string): string
  {
    ReplaceChar(ReplaceChar(ReplaceChar(ReplaceChar(ReplaceChar(
      s, '&', "&amp;"), '<', "&lt;"), '>', "&gt;"), '"', "&quot;"), '\'', "&#039;")
  }

  /** The entity of one character. */
  function EntityOf(c: char): string
  {
    if c == '&' then "&amp;"
    else if c == '<' then "&lt;"
    else if c == '>' then "&gt;"
    else if c == '"' then "&quot;"
    else if c == '\'' then "&#039;"
    else [c]
  }

  function EntityEach(s: string): string
  {
    if s == [] then [] else EntityOf(s[0]) + EntityEach(s[1..])
  }

  lemma EscapeHtmlAppend(a: string, b: string)
    ensures EscapeHtml(a + b) == EscapeHtml(a) + EscapeHtml(b)
  {
    ReplaceCharAppend(a, b, '&', "&amp;");
    var a1, b1 := ReplaceChar(a, '&', "&amp;"), ReplaceChar(b, '&', "&amp;");
    ReplaceCharAppend(a1, b1, '<', "&lt;");
    var a2, b2 := ReplaceChar(a1, '<', "&lt;"), ReplaceChar(b1, '<', "&lt;");
    ReplaceCharAppend(a2, b2, '>', "&gt;");
    var a3, b3 := ReplaceChar(a2, '>', "&gt;"), ReplaceChar(b2, '>', "&gt;");
    ReplaceCharAppend(a3, b3, '"', "&quot;");
    var a4, b4 := ReplaceChar(a3, '"', "&quot;"), ReplaceChar(b3, '"', "&quot;");
    ReplaceCharAppend(a4, b4, '\'', "&#039;");
  }

  /** Because `&` is replaced first, no entity is escaped a second time, and
      no later replacement rewrites an earlier entity. */
  lemma EscapeHtmlChar(c: char)
    ensures EscapeHtml([c]) == EntityOf(c)
  {
    if c == '&' {
      EscapeAmp();
    } else if c == '<' {
      EscapeLt();
    } else if c == '>' {
      EscapeGt();
    } else if c == '"' {
      EscapeQuot();
    } else if c == '\'' {
      EscapeApos();
    } else {
      EscapePlain(c);
    }
  }

  lemma EscapeAmp()
    ensures EscapeHtml("&") == "&amp;"
  {
    ReplaceCharOne('&', '&', "&amp;");
    AmpEntityStable();
  }

  /** No later replacement rewrites `&amp;`. */
  lemma AmpEntityStable()
    ensures ReplaceChar("&amp;", '<', "&lt;") == "&amp;"
    ensures ReplaceChar("&amp;", '>', "&gt;") == "&amp;"
    ensures ReplaceChar("&amp;", '"', "&quot;") == "&amp;"
    ensures ReplaceChar("&amp;", '\'', "&#039;") == "&amp;"
  {
  }

  lemma EscapeLt()
    ensures EscapeHtml("<") == "&lt;"
  {
    ReplaceCharOne('<', '&', "&amp;");
    ReplaceCharOne('<', '<', "&lt;");
    assert ReplaceChar("&lt;", '>', "&gt;") == "&lt;";
    assert ReplaceChar("&lt;", '"', "&quot;") == "&lt;";
    assert ReplaceChar("&lt;", '\'', "&#039;") == "&lt;";
  }

  lemma EscapeGt()
    ensures EscapeHtml(">") == "&gt;"
  {
    ReplaceCharOne('>', '&', "&amp;");
    ReplaceCharOne('>', '<', "&lt;");
    ReplaceCharOne('>', '>', "&gt;");
    assert ReplaceChar("&gt;", '"', "&quot;") == "&gt;";
    assert ReplaceChar("&gt;", '\'', "&#039;") == "&gt;";
  }

  lemma EscapeQuot()
    ensures EscapeHtml("\"") == "&quot;"
  {
    ReplaceCharOne('"', '&', "&amp;");
    ReplaceCharOne('"', '<', "&lt;");
    ReplaceCharOne('"', '>', "&gt;");
    ReplaceCharOne('"', '"', "&quot;");
    assert ReplaceChar("&quot;", '\'', "&#039;") == "&quot;";
  }

  lemma EscapeApos()
    ensures EscapeHtml("'") == "&#039;"
  {
    ReplaceCharOne('\'', '&', "&amp;");
    ReplaceCharOne('\'', '<', "&lt;");
    ReplaceCharOne('\'', '>', "&gt;");
    ReplaceCharOne('\'', '"', "&quot;");
    ReplaceCharOne('\'', '\'', "&#039;");
  }

  lemma EscapePlain(c: char)
    requires c != '&' && c != '<' && c != '>' && c != '"' && c != '\''
    ensures EscapeHtml([c]) == [c]
  {
    ReplaceCharOne(c, '&', "&amp;");
    ReplaceCharOne(c, '<', "&lt;");
    ReplaceCharOne(c, '>', "&gt;");
    ReplaceCharOne(c, '"', "&quot;");
    ReplaceCharOne(c, '\'', "&#039;");
  }

  /** The replacement chain is the character-wise entity map. */
  lemma {:induction false} EscapeHtmlIsEntityEach(s: string)
    ensures EscapeHtml(s) == EntityEach(s)
    decreases |s|
  {
    if s != [] {
      assert s == [s[0]] + s[1..];
      EscapeHtmlAppend([s[0]], s[1..]);
      EscapeHtmlChar(s[0]);
      EscapeHtmlIsEntityEach(s[1..]);
    } else {
      assert EscapeHtml(s) == [];
    }
  }

  predicate NoMarkup(t: string)
  {
    forall i :: 0 <= i < |t| ==> t[i] != '<' && t[i] != '>' && t[i] != '"' && t[i] != '\''
  }

  lemma {:induction false} EntityEachNoMarkup(s: string)
    ensures NoMarkup(EntityEach(s))
    decreases |s|
  {
    if s != [] {
      EntityEachNoMarkup(s[1..]);
      var e, rest := EntityOf(s[0]), EntityEach(s[1..]);
      assert EntityEach(s) == e + rest;
      forall i | 0 <= i < |e + rest|
        ensures (e + rest)[i] != '<' && (e + rest)[i] != '>' && (e + rest)[i] != '"' && (e + rest)[i] != '\''
      {
        if i >= |e| {
          assert (e + rest)[i] == rest[i - |e|];
        }
      }
    }
  }

  /** Reading entities back. */
  function UnescapeHtml(t: string): string
  {
    if t == [] then []
    else if t[0] != '&' then [t[0]] + UnescapeHtml(t[1..])
    else if IsPrefix("&amp;", t) then "&" + UnescapeHtml(t[5..])
    else if IsPrefix("&lt;", t) then "<" + UnescapeHtml(t[4..])
    else if IsPrefix("&gt;", t) then ">" + UnescapeHtml(t[4..])
    else if IsPrefix("&quot;", t) then "\"" + UnescapeHtml(t[6..])
    else if IsPrefix("&#039;", t) then "'" + UnescapeHtml(t[6..])
    else "&" + UnescapeHtml(t[1..])
  }

  lemma NotPrefixAt(p: string, t: string, i: nat)
    requires i < |p| && i < |t| && p[i] != t[i]
    ensures !IsPrefix(p, t)
  {
    if |p| <= |t| {
      assert t[..|p|][i] == t[i];
    }
  }

  lemma UnescapeEntity(c: char, rest: string)
    ensures UnescapeHtml(EntityOf(c) + rest) == [c] + UnescapeHtml(rest)
  {
    var e := EntityOf(c);
    var t := e + rest;
    assert t[..|e|] == e && t[|e|..] == rest;
    if c == '&' {
    } else if c == '<' {
      NotPrefixAt("&amp;", t, 1);
    } else if c == '>' {
      NotPrefixAt("&amp;", t, 1);
      NotPrefixAt("&lt;", t, 1);
    } else if c == '"' {
      NotPrefixAt("&amp;", t, 1);
      NotPrefixAt("&lt;", t, 1);
      NotPrefixAt("&gt;", t, 1);
    } else if c == '\'' {
      NotPrefixAt("&amp;", t, 1);
      NotPrefixAt("&lt;", t, 1);
      NotPrefixAt("&gt;", t, 1);
      NotPrefixAt("&quot;", t, 1);
    } else {
      assert t[0] == c;
    }
  }

  lemma {:induction false} UnescapeEntityEach(s: string)
    ensures UnescapeHtml(EntityEach(s)) == s
    decreases |s|
  {
    if s != [] {
      UnescapeEntity(s[0], EntityEach(s[1..]));
      UnescapeEntityEach(s[1..]);
      assert s == [s[0]] + s[1..];
    }
  }

  /** The escaped text contains no markup character and reads back as the
      original text. */
  lemma EscapeHtmlSafe(s: string)
    ensures NoMarkup(EscapeHtml(s))
    ensures UnescapeHtml(EscapeHtml(s)) == s
  {
    EscapeHtmlIsEntityEach(s);
    EntityEachNoMarkup(s);
    UnescapeEntityEach(s);
  }

  // ---- the order of Array.prototype.sort on strings ----

  /** Lexicographic order on characters. */
  predicate Less(a: string, b: string)
    decreases |a|
  {
    if a == [] then b != []
    else if b == [] then false
    else if a[0] != b[0] then a[0] < b[0]
    else Less(a[1..], b[1..])
  }

  lemma {:induction false} LessIrreflexive(a: string)
    ensures !Less(a, a)
    decreases |a|
  {
    if a != [] {
      LessIrreflexive(a[1..]);
    }
  }

  lemma {:induction false} LessTransitive(a: string, b: string, c: string)
    requires Less(a, b) && Less(b, c)
    ensures Less(a, c)
    decreases |a|
  {
    if a != [] && b != [] && c != [] && a[0] == b[0] && b[0] == c[0] {
      LessTransitive(a[1..], b[1..], c[1..]);
    }
  }

  lemma {:induction false} LessTotal(a: string, b: string)
    requires a != b
    ensures Less(a, b) || Less(b, a)
    decreases |a|
  {
    if a != [] && b != [] && a[0] == b[0] {
      assert a == [a[0]] + a[1..] && b == [b[0]] + b[1..];
      LessTotal(a[1..], b[1..]);
    }
  }

  lemma LessAsymmetric(a: string, b: string)
    requires Less(a, b)
    ensures !Less(b, a)
  {
    if Less(b, a) {
      LessTransitive(a, b, a);
      LessIrreflexive(a);
    }
  }

  predicate StrictlySorted(xs: seq<string>)
  {
    forall i, j :: 0 <= i < j < |xs| ==> Less(xs[i], xs[j])
  }

  predicate Distinct(xs: seq<string>)
  {
    forall i, j :: 0 <= i < j < |xs| ==> xs[i] != xs[j]
  }

  lemma SortedIsDistinct(xs: seq<string>)
    requires StrictlySorted(xs)
    ensures Distinct(xs)
  {
    forall i, j | 0 <= i < j < |xs| ensures xs[i] != xs[j] {
      if xs[i] == xs[j] {
        LessIrreflexive(xs[i]);
      }
    }
  }

  /** `x` placed before the first greater element. */
  function Insert(x: string, xs: seq<string>): (r: seq<string>)
    requires StrictlySorted(xs) && x !in xs
    ensures StrictlySorted(r)
    ensures multiset(r) == multiset(xs) + multiset{x}
  {
    if xs == [] then [x]
    else if Less(x, xs[0]) then
      InsertFront(x, xs);
      [x] + xs
    else
      var rest := Insert(x, xs[1..]);
      LessTotal(x, xs[0]);
      assert xs == [xs[0]] + xs[1..];
      forall y | y in rest ensures Less(xs[0], y) {
        assert y in multiset(rest);
        if y != x {
          var j :| 0 <= j < |xs[1..]| && xs[1..][j] == y;
          assert xs[j + 1] == y;
        }
      }
      ConsSorted(xs[0], rest);
      [xs[0]] + rest
  }

  lemma InsertFront(x: string, xs: seq<string>)
    requires StrictlySorted(xs) && xs != [] && Less(x, xs[0])
    ensures StrictlySorted([x] + xs)
  {
    forall j | 0 < j < |xs| ensures Less(x, xs[j]) {
      LessTransitive(x, xs[0], xs[j]);
    }
  }

  lemma ConsSorted(a: string, xs: seq<string>)
    requires StrictlySorted(xs) && forall y :: y in xs ==> Less(a, y)
    ensures StrictlySorted([a] + xs)
  {
    forall i, j | 0 <= i < j < |[a] + xs| ensures Less(([a] + xs)[i], ([a] + xs)[j]) {
      if i == 0 {
        assert ([a] + xs)[j] == xs[j - 1];
        assert xs[j - 1] in xs;
      } else {
        assert ([a] + xs)[i] == xs[i - 1] && ([a] + xs)[j] == xs[j - 1];
      }
    }
  }

  /** `columns.sort()` on distinct strings: an ordered permutation. */
  function Sort(xs: seq<string>): (r: seq<string>)
    requires Distinct(xs)
    ensures StrictlySorted(r)
    ensures multiset(r) == multiset(xs)
  {
    if xs == [] then []
    else
      assert xs == [xs[0]] + xs[1..];
      var rest := Sort(xs[1..]);
      HeadNotInRest(xs, rest);
      Insert(xs[0], rest)
  }

  lemma HeadNotInRest(xs: seq<string>, rest: seq<string>)
    requires Distinct(xs) && xs != [] && multiset(rest) == multiset(xs[1..])
    ensures xs[0] !in rest
  {
    forall y | y in rest ensures y != xs[0] {
      assert y in multiset(xs[1..]);
      var j :| 0 <= j < |xs[1..]| && xs[1..][j] == y;
      assert xs[j + 1] == y;
    }
  }

  /** The first element of an ordered list is its least. */
  lemma SortedFirstIsLeast(xs: seq<string>, x: string)
    requires StrictlySorted(xs) && x in xs
    ensures x == xs[0] || Less(xs[0], x)
  {
    var i :| 0 <= i < |xs| && xs[i] == x;
  }

  lemma LessNotBoth(a: string, b: string)
    ensures !(Less(a, b) && Less(b, a))
  {
    if Less(a, b) {
      LessAsymmetric(a, b);
    }
  }

  /** The column order depends only on the set of column names: two strictly
      ordered lists of the same names are the same list. */
  lemma {:induction false} SortedUnique(a: seq<string>, b: seq<string>)
    requires StrictlySorted(a) && StrictlySorted(b)
    requires forall c :: c in a <==> c in b
    ensures a == b
    decreases |a|
  {
    assert a != [] ==> a[0] in b;
    assert b != [] ==> b[0] in a;
    if a != [] && b != [] {
      SortedFirstIsLeast(a, b[0]);
      SortedFirstIsLeast(b, a[0]);
      LessNotBoth(a[0], b[0]);
      SortedIsDistinct(a);
      SortedIsDistinct(b);
      forall c ensures c in a[1..] <==> c in b[1..] {
        if c in a[1..] {
          var i :| 1 <= i < |a| && a[i] == c;
          assert c in b;
          assert c != b[0];
        }
        if c in b[1..] {
          var i :| 1 <= i < |b| && b[i] == c;
          assert c in a;
          assert c != a[0];
        }
      }
      SortedUnique(a[1..], b[1..]);
      assert a == [a[0]] + a[1..] && b == [b[0]] + b[1..];
    }
  }

  // ---- rows, keys and cells ----

  /** The own enumerable keys a `for (key in row)` loop with a
      `hasOwnProperty` test visits; primitives have none. An error's own
      `message` and `stack` are not enumerable; a `String` wrapper's indices
      are. */
  function OwnKeys(heap: Heap, v: Value): seq<string>
    requires ValueIn(heap, v)
  {
    if !v.Ref? then []
    else
      match heap[v.id]
      case ArrayNode(items) => seq(|items|, i requires 0 <= i < |items| => NatToString(i))
      case ObjectNode(props) => PropKeys(props)
      case ElementNode(_, _, _, props) => PropKeys(props)
      case WrapperNode(kind, s) =>
        if kind == StringWrapper then seq(|s|, i requires 0 <= i < |s| => NatToString(i)) else []
      case _ => []
  }

  function PropKeys(ps: seq<Prop>): (ks: seq<string>)
    ensures |ks| == |ps| && forall i :: 0 <= i < |ps| ==> ks[i] == ps[i].key
  {
    seq(|ps|, i requires 0 <= i < |ps| => ps[i].key)
  }

  /** `Object.keys(data)`, for a data object that is not an array. */
  function ObjectKeys(heap: Heap, v: Value): seq<string>
    requires ValueIn(heap, v)
  {
    if v.Ref? && !heap[v.id].ArrayNode? then OwnKeys(heap, v) else []
  }

  /** `columnSet[key] = true` on a plain object: `__proto__` runs the
      inherited setter, which ignores the non-object `true`, so that key is
      never recorded. */
  const ProtoKey: string := "__proto__"

  /** Adding keys to the `columnSet` object: a new key is appended, a known
      one and `__proto__` change nothing. */
  function AddKeys(seen: seq<string>, keys: seq<string>): seq<string>
    decreases |keys|
  {
    if keys == [] then seen
    else AddKeys(if keys[0] == ProtoKey || keys[0] in seen then seen else seen + [keys[0]], keys[1..])
  }

  lemma AppendNew(seen: seq<string>, k: string)
    requires Distinct(seen) && k !in seen
    ensures Distinct(seen + [k])
  {
    var next := seen + [k];
    forall i, j | 0 <= i < j < |next| ensures next[i] != next[j] {
      if j == |seen| {
        assert next[i] == seen[i];
      }
    }
  }

  /** The keys seen so far stay distinct. */
  lemma {:induction false} AddKeysDistinct(seen: seq<string>, keys: seq<string>)
    requires Distinct(seen)
    ensures Distinct(AddKeys(seen, keys))
    decreases |keys|
  {
    if keys != [] {
      if keys[0] != ProtoKey && keys[0] !in seen {
        AppendNew(seen, keys[0]);
      }
      AddKeysDistinct(if keys[0] == ProtoKey || keys[0] in seen then seen else seen + [keys[0]], keys[1..]);
    }
  }

  /** A key is seen once it was seen before or occurs among the new keys and
      is not `__proto__`. */
  lemma {:induction false} AddKeysMembers(seen: seq<string>, keys: seq<string>)
    ensures forall c :: c in AddKeys(seen, keys) <==> c in seen || (c in keys && c != ProtoKey)
    decreases |keys|
  {
    if keys != [] {
      AddKeysMembers(if keys[0] == ProtoKey || keys[0] in seen then seen else seen + [keys[0]], keys[1..]);
      assert keys == [keys[0]] + keys[1..];
    }
  }

  predicate InAllIn(heap: Heap, rows: seq<Value>)
  {
    forall i :: 0 <= i < |rows| ==> ValueIn(heap, rows[i])
  }

  /** The keys of the first `n` rows, in order of first appearance. */
  function SeenKeys(heap: Heap, rows: seq<Value>, n: nat): seq<string>
    requires InAllIn(heap, rows) && n <= |rows|
  {
    if n == 0 then [] else AddKeys(SeenKeys(heap, rows, n - 1), OwnKeys(heap, rows[n - 1]))
  }

  /** Key `c` is an own key of one of the first `n` rows. */
  predicate InSomeRow(heap: Heap, rows: seq<Value>, n: nat, c: string)
    requires InAllIn(heap, rows) && n <= |rows|
  {
    exists i :: 0 <= i < n && c in OwnKeys(heap, rows[i])
  }

  lemma {:induction false} SeenKeysDistinct(heap: Heap, rows: seq<Value>, n: nat)
    requires InAllIn(heap, rows) && n <= |rows|
    ensures Distinct(SeenKeys(heap, rows, n))
  {
    if n > 0 {
      SeenKeysDistinct(heap, rows, n - 1);
      AddKeysDistinct(SeenKeys(heap, rows, n - 1), OwnKeys(heap, rows[n - 1]));
    }
  }

  lemma {:induction false} SeenKeysMembers(heap: Heap, rows: seq<Value>, n: nat)
    requires InAllIn(heap, rows) && n <= |rows|
    ensures forall c :: c in SeenKeys(heap, rows, n) <==> InSomeRow(heap, rows, n, c) && c != ProtoKey
  {
    if n > 0 {
      SeenKeysMembers(heap, rows, n - 1);
      AddKeysMembers(SeenKeys(heap, rows, n - 1), OwnKeys(heap, rows[n - 1]));
      forall c ensures c in SeenKeys(heap, rows, n) <==> InSomeRow(heap, rows, n, c) && c != ProtoKey {
        if c in OwnKeys(heap, rows[n - 1]) {
          assert 0 <= n - 1 < n;
        }
        if InSomeRow(heap, rows, n, c) {
          var i :| 0 <= i < n && c in OwnKeys(heap, rows[i]);
          if i < n - 1 {
            assert InSomeRow(heap, rows, n - 1, c);
          }
        }
      }
    }
  }

  /** Rows without own keys see no keys. */
  lemma {:induction false} SeenKeysEmpty(heap: Heap, rows: seq<Value>, n: nat)
    requires InAllIn(heap, rows) && n <= |rows|
    requires forall i :: 0 <= i < |rows| ==> OwnKeys(heap, rows[i]) == []
    ensures SeenKeys(heap, rows, n) == []
  {
    if n > 0 {
      SeenKeysEmpty(heap, rows, n - 1);
      assert OwnKeys(heap, rows[n - 1]) == [];
    }
  }

  /** The auto-detected columns. */
  function AutoColumns(heap: Heap, rows: seq<Value>): seq<string>
    requires InAllIn(heap, rows)
  {
    SeenKeysDistinct(heap, rows, |rows|);
    Sort(SeenKeys(heap, rows, |rows|))
  }

  /** The auto-detected columns are exactly the own keys of the rows other
      than `__proto__`, each once, in sorted order. */
  lemma AutoColumnsAreSortedUnion(heap: Heap, rows: seq<Value>)
    requires InAllIn(heap, rows)
    ensures StrictlySorted(AutoColumns(heap, rows))
    ensures forall c :: c in AutoColumns(heap, rows) <==> InSomeRow(heap, rows, |rows|, c) && c != ProtoKey
  {
    var seen := SeenKeys(heap, rows, |rows|);
    SeenKeysDistinct(heap, rows, |rows|);
    SeenKeysMembers(heap, rows, |rows|);
    forall c ensures c in AutoColumns(heap, rows) <==> c in seen {
      assert c in AutoColumns(heap, rows) <==> c in multiset(AutoColumns(heap, rows));
      assert c in seen <==> c in multiset(seen);
    }
  }

  /** A row whose only own key is `__proto__` gives no columns at all. */
  lemma ProtoOnlyRowHasNoColumns()
    ensures AutoColumns(map[0 := ObjectNode([Prop(ProtoKey, Num("1"))])], [Ref(0)]) == []
  {
    var heap := map[0 := ObjectNode([Prop(ProtoKey, Num("1"))])];
    assert OwnKeys(heap, Ref(0)) == [ProtoKey];
    assert SeenKeys(heap, [Ref(0)], 1) == AddKeys([], [ProtoKey]);
    assert AddKeys([], [ProtoKey]) == AddKeys([], []);
  }

  /** `new String("ab")` as the only row: its enumerable own indices are the
      columns. */
  lemma StringWrapperRowColumns()
    ensures AutoColumns(map[0 := WrapperNode(StringWrapper, "ab")], [Ref(0)]) == ["0", "1"]
  {
    var heap := map[0 := WrapperNode(StringWrapper, "ab")];
    var cols := AutoColumns(heap, [Ref(0)]);
    var ks := OwnKeys(heap, Ref(0));
    assert NatToString(0) == "0" && NatToString(1) == "1";
    assert |ks| == 2 && ks[0] == "0" && ks[1] == "1";
    AutoColumnsAreSortedUnion(heap, [Ref(0)]);
    forall c ensures c in cols <==> c in ["0", "1"] {
      assert InSomeRow(heap, [Ref(0)], 1, c) <==> c in ks;
      assert c in ks <==> c == "0" || c == "1";
    }
    assert StrictlySorted(["0", "1"]) by { assert Less("0", "1"); }
    SortedUnique(cols, ["0", "1"]);
  }

  /** The cells of a `new String("ab")` row are its characters, and it also
      owns `length`. */
  lemma StringWrapperRowCells()
    ensures CellValue(map[0 := WrapperNode(StringWrapper, "ab")], Ref(0), "1") == Str("b")
    ensures CellValue(map[0 := WrapperNode(StringWrapper, "ab")], Ref(0), "length") == Num("2")
  {
    assert NatToString(0) == "0" && NatToString(1) == "1" && NatToString(2) == "2";
    assert FindIndex("1", 2, 0) == Some(1);
  }

  /** `new Error("boom")` as a row: the `message` column shows its own
      message, though `message` is not an enumerable column. */
  lemma ErrorRowMessageCell()
    ensures CellValue(map[0 := ErrorNode("boom", "")], Ref(0), "message") == Str("boom")
    ensures OwnKeys(map[0 := ErrorNode("boom", "")], Ref(0)) == []
  {
  }

  /** The index of an array element named by `key`, if any. */
  function FindIndex(key: string, n: nat, i: nat): (r: Option<nat>)
    ensures r.Some? ==> i <= r.value < n && NatToString(r.value) == key
    ensures r.None? ==> forall j :: i <= j < n ==> NatToString(j) != key
    decreases n - i
  {
    if i >= n then None
    else if NatToString(i) == key then Some(i)
    else FindIndex(key, n, i + 1)
  }

  function LookupProp(ps: seq<Prop>, key: string): (r: Option<Value>)
    ensures r.Some? ==> exists p :: p in ps && p.key == key && p.value == r.value
    ensures r.None? ==> forall p :: p in ps ==> p.key != key
  {
    if ps == [] then None
    else if ps[0].key == key then Some(ps[0].value)
    else
      assert ps == [ps[0]] + ps[1..];
      LookupProp(ps[1..], key)
  }

  /** `row.hasOwnProperty(colName) ? row[colName] : ''`. Arrays and `String`
      wrappers also own `length`; an error owns the `message` it was built
      with and its `stack`. */
  function CellValue(heap: Heap, row: Value, col: string): (r: Value)
    requires Closed(heap) && ValueIn(heap, row)
    ensures ValueIn(heap, r)
  {
    if !row.Ref? then Str("")
    else
      var node := heap[row.id];
      assert NodeClosed(heap, node);
      match node
      case ArrayNode(items) =>
        if col == "length" then Num(NatToString(|items|))
        else
          (match FindIndex(col, |items|, 0)
           case Some(i) => assert items[i] in items; items[i]
           case None => Str(""))
      case ObjectNode(props) => (match LookupProp(props, col) case Some(v) => v case None => Str(""))
      case ElementNode(_, _, _, props) => (match LookupProp(props, col) case Some(v) => v case None => Str(""))
      case ErrorNode(message, stack) =>
        if col == "message" then Str(message)
        else if col == "stack" then Str(stack)
        else Str("")
      case WrapperNode(kind, s) =>
        if kind != StringWrapper then Str("")
        else if col == "length" then Num(NatToString(|s|))
        else
          (match FindIndex(col, |s|, 0)
           case Some(i) => Str([s[i]])
           case None => Str(""))
      case DateNode(_) => Str("")
  }

  const MaxCellLength: nat := 100

  /** A displayed cell: at most 100 characters of the converted text, then
      `...` when some were cut. */
  function Truncate(s: string): (r: string)
    ensures |s| <= MaxCellLength ==> r == s
    ensures |s| > MaxCellLength ==> |r| == MaxCellLength + 3 && IsPrefix(r[..MaxCellLength], s) && r[MaxCellLength..] == "..."
  {
    if |s| > MaxCellLength then s[..MaxCellLength] + "..." else s
  }

  // ---- the table text ----

  const TableOpen: string := "<table border=\"1\" style=\"border-collapse:collapse; margin: 5px 0; font-size: inherit;\"><thead><tr>"
  const HeadOpen: string := "<th style=\"padding: 2px 5px;\">"
  const CellOpen: string := "<td style=\"padding: 2px 5px;\">"
  const EmptyTable: string := "<span>Table data is empty.</span>"
  const NoColumns: string := "<span>Table data has no properties to display.</span>"

  /** The context a table is rendered in: the heap and the conversion
      functions `_convertToString` uses. */
  datatype Env = Env(heap: Heap, pretty: bool, stringify: Value -> Outcome, coerce: Value -> Outcome)

  predicate EnvOk(env: Env)
  {
    Closed(env.heap)
  }

  function HeadCell(col: string): string
  {
    HeadOpen + EscapeHtml(col) + "</th>"
  }

  function HeadCells(columns: seq<string>): (cs: seq<string>)
    ensures |cs| == |columns| && forall j :: 0 <= j < |columns| ==> cs[j] == HeadCell(columns[j])
  {
    seq(|columns|, j requires 0 <= j < |columns| => HeadCell(columns[j]))
  }

  function Head(isArray: bool, columns: seq<string>): string
  {
    TableOpen + HeadOpen + (if isArray then "(index)" else "(key)") + "</th>"
    + Concat(HeadCells(columns)) + "</tr></thead><tbody>"
  }

  function CellText(env: Env, row: Value, col: string): string
    requires EnvOk(env) && ValueIn(env.heap, row)
  {
    CellOpen
    + EscapeHtml(Truncate(ConvertToString(env.heap, CellValue(env.heap, row, col), env.pretty, env.stringify, env.coerce)))
    + "</td>"
  }

  function Cells(env: Env, row: Value, columns: seq<string>): (cs: seq<string>)
    requires EnvOk(env) && ValueIn(env.heap, row)
    ensures |cs| == |columns| && forall l :: 0 <= l < |columns| ==> cs[l] == CellText(env, row, columns[l])
  {
    seq(|columns|, l requires 0 <= l < |columns| => CellText(env, row, columns[l]))
  }

  /** `isArray ? k : Object.keys(data)[k]`, as text. */
  function IndexKey(env: Env, data: Value, isArray: bool, k: nat): string
    requires ValueIn(env.heap, data)
  {
    if isArray then NatToString(k)
    else
      var keys := ObjectKeys(env.heap, data);
      if k < |keys| then keys[k] else "undefined"
  }

  function RowStart(env: Env, data: Value, isArray: bool, k: nat): string
    requires ValueIn(env.heap, data)
  {
    "<tr><td style=\"padding: 2px 5px;\"><strong>" + EscapeHtml(IndexKey(env, data, isArray, k)) + "</strong></td>"
  }

  function RowText(env: Env, data: Value, isArray: bool, row: Value, k: nat, columns: seq<string>): string
    requires EnvOk(env) && ValueIn(env.heap, data) && ValueIn(env.heap, row)
  {
    RowStart(env, data, isArray, k) + Concat(Cells(env, row, columns)) + "</tr>"
  }

  function Rows(env: Env, data: Value, isArray: bool, rows: seq<Value>, columns: seq<string>): (rs: seq<string>)
    requires EnvOk(env) && ValueIn(env.heap, data) && InAllIn(env.heap, rows)
    ensures |rs| == |rows| && forall k :: 0 <= k < |rows| ==> rs[k] == RowText(env, data, isArray, rows[k], k, columns)
  {
    seq(|rows|, k requires 0 <= k < |rows| => RowText(env, data, isArray, rows[k], k, columns))
  }

  predicate IsArrayValue(heap: Heap, v: Value)
    requires ValueIn(heap, v)
  {
    v.Ref? && heap[v.id].ArrayNode?
  }

  /** `rows`: the elements of an array, or the object itself. */
  function RowsOf(heap: Heap, data: Value): (rows: seq<Value>)
    requires Closed(heap) && ValueIn(heap, data)
    ensures InAllIn(heap, rows)
  {
    if IsArrayValue(heap, data) then
      var items := heap[data.id].items;
      assert NodeClosed(heap, heap[data.id]);
      assert forall i :: 0 <= i < |items| ==> items[i] in items;
      items
    else [data]
  }

  /** `_createHtmlTable(data, specificColumns)`; `None` is the `null` returned
      for data that is not an object. An empty `specificColumns` stands for
      a missing one as well. */
  function TableHtml(env: Env, data: Value, specificColumns: seq<string>): (r: Option<string>)
    requires EnvOk(env) && ValueIn(env.heap, data)
    ensures r.None? <==> !data.Ref?
  {
    if !data.Ref? then None
    else
      var isArray := IsArrayValue(env.heap, data);
      var rows := RowsOf(env.heap, data);
      if |rows| == 0 then Some(EmptyTable)
      else
        var columns := if |specificColumns| > 0 then specificColumns else AutoColumns(env.heap, rows);
        if |columns| == 0 then Some(NoColumns)
        else Some(Head(isArray, columns) + Concat(Rows(env, data, isArray, rows, columns)) + "</tbody></table>")
  }

  // ---- the builder, as the code runs it ----

  /** The inner loop: each key not yet in `columnSet` is added, except
      `__proto__`, whose assignment the inherited setter swallows. */
  method AddRowKeys(columnSet: seq<string>, keys: seq<string>) returns (r: seq<string>)
    ensures r == AddKeys(columnSet, keys)
  {
    r := columnSet;
    var j := 0;
    while j < |keys|
      invariant 0 <= j <= |keys|
      invariant AddKeys(r, keys[j..]) == AddKeys(columnSet, keys)
    {
      assert keys[j..] == [keys[j]] + keys[j + 1..];
      if keys[j] != ProtoKey && keys[j] !in r {
        r := r + [keys[j]];
      }
      j := j + 1;
    }
    assert keys[|keys|..] == [];
  }

  /** The two loops filling `columnSet`. */
  method CollectKeys(heap: Heap, rows: seq<Value>) returns (columnSet: seq<string>)
    requires InAllIn(heap, rows)
    ensures columnSet == SeenKeys(heap, rows, |rows|)
  {
    columnSet := [];
    var i := 0;
    while i < |rows|
      invariant 0 <= i <= |rows|
      invariant columnSet == SeenKeys(heap, rows, i)
    {
      columnSet := AddRowKeys(columnSet, OwnKeys(heap, rows[i]));
      i := i + 1;
    }
  }

  /** The collected keys, then `columns.sort()`. */
  method DetectColumns(heap: Heap, rows: seq<Value>) returns (columns: seq<string>)
    requires InAllIn(heap, rows)
    ensures columns == AutoColumns(heap, rows)
  {
    var columnSet := CollectKeys(heap, rows);
    SeenKeysDistinct(heap, rows, |rows|);
    columns := Sort(columnSet);
  }

  method BuildHeadCells(columns: seq<string>) returns (h: string)
    ensures h == Concat(HeadCells(columns))
  {
    ghost var parts := HeadCells(columns);
    h := "";
    var j := 0;
    while j < |columns|
      invariant 0 <= j <= |columns|
      invariant h == Concat(parts[..j])
    {
      ConcatSnoc(parts, j);
      h := h + HeadCell(columns[j]);
      j := j + 1;
    }
    assert parts[..|columns|] == parts;
  }

  method BuildCells(env: Env, row: Value, columns: seq<string>) returns (cells: string)
    requires EnvOk(env) && ValueIn(env.heap, row)
    ensures cells == Concat(Cells(env, row, columns))
  {
    ghost var parts := Cells(env, row, columns);
    cells := "";
    var l := 0;
    while l < |columns|
      invariant 0 <= l <= |columns|
      invariant cells == Concat(parts[..l])
    {
      ConcatSnoc(parts, l);
      cells := cells + CellText(env, row, columns[l]);
      l := l + 1;
    }
    assert parts[..|columns|] == parts;
  }

  method BuildRow(env: Env, data: Value, isArray: bool, row: Value, k: nat, columns: seq<string>) returns (line: string)
    requires EnvOk(env) && ValueIn(env.heap, data) && ValueIn(env.heap, row)
    ensures line == RowText(env, data, isArray, row, k, columns)
  {
    var cells := BuildCells(env, row, columns);
    line := RowStart(env, data, isArray, k) + cells + "</tr>";
  }

  method BuildRows(env: Env, data: Value, isArray: bool, rows: seq<Value>, columns: seq<string>) returns (body: string)
    requires EnvOk(env) && ValueIn(env.heap, data) && InAllIn(env.heap, rows)
    ensures body == Concat(Rows(env, data, isArray, rows, columns))
  {
    ghost var parts := Rows(env, data, isArray, rows, columns);
    body := "";
    var k := 0;
    while k < |rows|
      invariant 0 <= k <= |rows|
      invariant body == Concat(parts[..k])
    {
      ConcatSnoc(parts, k);
      var line := BuildRow(env, data, isArray, rows[k], k, columns);
      body := body + line;
      k := k + 1;
    }
    assert parts[..|rows|] == parts;
  }

  /** `_createHtmlTable`: the header cells and the body rows appended in
      loops. */
  method CreateHtmlTable(env: Env, data: Value, specificColumns: seq<string>) returns (r: Option<string>)
    requires EnvOk(env) && ValueIn(env.heap, data)
    ensures r == TableHtml(env, data, specificColumns)
  {
    if !data.Ref? {
      return None;
    }
    var isArray := IsArrayValue(env.heap, data);
    var rows := RowsOf(env.heap, data);
    if |rows| == 0 {
      return Some(EmptyTable);
    }
    var columns := specificColumns;
    if |columns| == 0 {
      columns := DetectColumns(env.heap, rows);
    }
    if |columns| == 0 {
      return Some(NoColumns);
    }
    var headCells := BuildHeadCells(columns);
    var body := BuildRows(env, data, isArray, rows, columns);
    r := Some(TableOpen + HeadOpen + (if isArray then "(index)" else "(key)") + "</th>"
      + headCells + "</tr></thead><tbody>" + body + "</tbody></table>");
  }

  // ---- properties of the table ----

  /** An empty array renders the empty-table notice whatever the columns. */
  lemma EmptyArrayTable(env: Env, data: Value, specificColumns: seq<string>)
    requires EnvOk(env) && ValueIn(env.heap, data)
    requires data.Ref? && env.heap[data.id] == ArrayNode([])
    ensures TableHtml(env, data, specificColumns) == Some(EmptyTable)
  {
  }

  /** Rows whose own keys are all absent and no columns given: the
      no-properties notice. */
  lemma NoKeysTable(env: Env, data: Value)
    requires EnvOk(env) && ValueIn(env.heap, data) && data.Ref?
    requires |RowsOf(env.heap, data)| > 0
    requires forall i :: 0 <= i < |RowsOf(env.heap, data)| ==> OwnKeys(env.heap, RowsOf(env.heap, data)[i]) == []
    ensures TableHtml(env, data, []) == Some(NoColumns)
  {
    var rows := RowsOf(env.heap, data);
    SeenKeysEmpty(env.heap, rows, |rows|);
  }

  /** Every escaped cell of the table holds no markup character, so cell
      text can never open or close an element. */
  lemma CellTextIsEscaped(env: Env, row: Value, col: string)
    requires EnvOk(env) && ValueIn(env.heap, row)
    ensures var inner := CellText(env, row, col)[|CellOpen|..|CellText(env, row, col)| - 5];
      NoMarkup(inner)
  {
    var t := Truncate(ConvertToString(env.heap, CellValue(env.heap, row, col), env.pretty, env.stringify, env.coerce));
    EscapeHtmlSafe(t);
    var c := CellText(env, row, col);
    assert c[|CellOpen|..|c| - 5] == EscapeHtml(t);
  }
}
