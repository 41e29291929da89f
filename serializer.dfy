/** The value serializer: `_prettyPrintObject` (depth-, length- and
    array-bounded, cycle-safe) and `_convertToString` (a total dispatch with a
    fallback chain). JavaScript objects live in an explicit heap from object
    identities to nodes; the "visiting" marker the code writes onto an object is
    the membership of its identity in a visited set. */
module Serializer {
  import opened Text

  const MaxDepth: nat := 5
  const MaxArrayLength: nat := 50
  const MaxStringLength: nat := 100
  /** The property the code writes onto an object while it is being printed. */
  const MarkerKey: string := "__xmediaLoggerVisited__"
  const MaxDepthText: string := "\"[Max Depth Reached]\""
  const CircularText: string := "\"[Circular Reference]\""

  /** A JavaScript value. Primitives are carried by value; every object
      (arrays, dates, errors, DOM elements, wrappers, plain objects) is a
      reference into the heap. Functions carry their name and source text. */
  datatype Value =
    | Undefined
    | Null
    | Bool(b: bool)
    | Num(text: string)
    | Str(s: string)
    | Func(name: string, source: string)
    | Ref(id: nat)

  /** An own enumerable property, in enumeration order. */
  datatype Prop = Prop(key: string, value: Value)

  datatype Node =
    | ArrayNode(items: seq<Value>)
    | ObjectNode(props: seq<Prop>)
    | ElementNode(tag: string, elementId: string, classes: seq<string>, props: seq<Prop>)
      /** `iso` is `toISOString()`, `None` for an invalid date (where it throws). */
    | DateNode(iso: Option<string>)
      /** an empty `message` or `stack` is a falsy one */
    | ErrorNode(message: string, stack: string)
      /** `new String(..)`, `new Number(..)`, `new Boolean(..)` with `valueOf()` text */
    | WrapperNode(kind: WrapperKind, primitive: string)

  /** A `String` wrapper owns an enumerable index key per character and a
      `length`; `Number` and `Boolean` wrappers own no properties. */
  datatype WrapperKind = StringWrapper | NumberWrapper | BooleanWrapper

  type Heap = map<nat, Node>

  datatype Exception = Exception(isTypeError: bool, message: string)

  /** A computation that either returns text or throws. */
  datatype Outcome = Done(text: string) | Threw(error: Exception)

  /** The RangeError `toISOString` throws on an invalid date. */
  const InvalidDate: Exception := Exception(false, "Invalid time value")
  /** The TypeError of calling `obj.hasOwnProperty(key)` when the object's
      own `hasOwnProperty` member is not a function. */
  const HasOwnNotCallable: Exception := Exception(true, "obj.hasOwnProperty is not a function")

  /** The exceptions the printer itself can raise. */
  predicate PrinterError(e: Exception)
  {
    e == InvalidDate || e == HasOwnNotCallable
  }

  predicate ValueIn(heap: Heap, v: Value)
  {
    v.Ref? ==> v.id in heap
  }

  predicate AllIn(heap: Heap, vs: seq<Value>)
  {
    forall x :: x in vs ==> ValueIn(heap, x)
  }

  predicate PropsIn(heap: Heap, ps: seq<Prop>)
  {
    forall p :: p in ps ==> ValueIn(heap, p.value)
  }

  predicate NodeClosed(heap: Heap, n: Node)
  {
    match n
    case ArrayNode(items) => AllIn(heap, items)
    case ObjectNode(props) => PropsIn(heap, props)
    case ElementNode(_, _, _, props) => PropsIn(heap, props)
    case _ => true
  }

  /** Every reference stored in the heap points into the heap. */
  predicate Closed(heap: Heap)
  {
    forall id :: id in heap ==> NodeClosed(heap, heap[id])
  }

  function Min(a: nat, b: nat): nat
  {
    if a <= b then a else b
  }

  function Indent(n: nat): string
  {
    Repeat("  ", n)
  }

  /** Recursion budget: how many more levels the printer may descend. */
  function Rank(depth: nat): nat
  {
    if depth > MaxDepth then 0 else MaxDepth + 1 - depth
  }

  // ---- strings ----

  /** The escaping applied to a short string: backslash first, then the double
      quote, newline, carriage return and tab. */
  function EscapeString(s: string): string
  {
    ReplaceChar(ReplaceChar(ReplaceChar(ReplaceChar(ReplaceChar(
      s, '\\', "\\\\"), '"', "\\\""), '\n', "\\n"), '\r', "\\r"), '\t', "\\t")
  }

  function QuoteString(s: string): string
  {
    if |s| > MaxStringLength then
      "\"" + s[..MaxStringLength] + "... (" + NatToString(|s|) + " chars)\""
    else
      "\"" + EscapeString(s) + "\""
  }

  predicate IdentStart(c: char)
  {
    ('a' <= c <= 'z') || ('A' <= c <= 'Z') || c == '_' || c == '$'
  }

  predicate IdentPart(c: char)
  {
    IdentStart(c) || IsDigit(c)
  }

  /** `/^[a-zA-Z_$][a-zA-Z0-9_$]*$/.test(k)`. */
  predicate IsIdentifier(k: string)
  {
    |k| > 0 && IdentStart(k[0]) && AllIdentParts(k[1..])
  }

  predicate AllIdentParts(s: string)
  {
    s == [] || (IdentPart(s[0]) && AllIdentParts(s[1..]))
  }

  /** The escaping applied to a key that is not an identifier: backslash
      first, then the double quote. Control characters stay as they are. */
  function EscapeKey(k: string): string
  {
    ReplaceChar(ReplaceChar(k, '\\', "\\\\"), '"', "\\\"")
  }

  /** A key is printed bare when it is an identifier, between double quotes
      with only backslashes and double quotes escaped otherwise. */
  function QuoteKey(k: string): string
  {
    if IsIdentifier(k) then k else "\"" + EscapeKey(k) + "\""
  }

  function ErrorText(message: string, stack: string, indent: nat): string
  {
    "[Error: " + (if message == "" then "Unknown Error" else message)
    + (if stack == "" then ""
       else "\n" + Indent(indent) + "  Stack: " + ReplaceChar(stack, '\n', "\n" + Indent(indent) + "  "))
    + "]"
  }

  /** The keys the printer lists: every own key except the marker. */
  function Listed(props: seq<Prop>): (r: seq<Prop>)
    ensures forall p :: p in r ==> p in props && p.key != MarkerKey
    ensures forall p :: p in props && p.key != MarkerKey ==> p in r
    ensures |r| <= |props|
  {
    if props == [] then []
    else
      var last := props[|props| - 1];
      assert props == props[..|props| - 1] + [last];
      Listed(props[..|props| - 1]) + (if last.key == MarkerKey then [] else [last])
  }

  function MembersOf(n: Node): seq<Prop>
  {
    match n
    case ObjectNode(props) => props
    case ElementNode(_, _, _, props) => props
    case _ => []
  }

  /** `obj[key]` for an own member: the first property with that key. */
  function OwnValue(props: seq<Prop>, key: string): (r: Option<Value>)
    ensures r.Some? <==> exists i :: 0 <= i < |props| && props[i].key == key
    ensures r.Some? ==> exists i :: 0 <= i < |props| && props[i] == Prop(key, r.value)
  {
    if props == [] then None
    else if props[0].key == key then Some(props[0].value)
    else
      var r := OwnValue(props[1..], key);
      assert forall i :: 0 < i < |props| ==> props[i] == props[1..][i - 1];
      r
  }

  /** `!!v`. A number is carried as its `String(v)` text. */
  predicate ValueTruthy(v: Value)
  {
    match v
    case Undefined => false
    case Null => false
    case Bool(b) => b
    case Num(t) => t != "0" && t != "NaN"
    case Str(s) => s != ""
    case _ => true
  }

  /** The object already carries a truthy marker of its own, so the cycle
      check `obj.__xmediaLoggerVisited__` fires on first sight. */
  predicate OwnMarked(n: Node)
  {
    var m := OwnValue(MembersOf(n), MarkerKey);
    m.Some? && ValueTruthy(m.value)
  }

  /** An own `hasOwnProperty` member that is not a function: the key loop's
      `obj.hasOwnProperty(key)` throws on its first key (there is always
      one, the marker itself). */
  predicate BrokenHasOwn(n: Node)
  {
    var h := OwnValue(MembersOf(n), "hasOwnProperty");
    h.Some? && !h.value.Func?
  }

  predicate IsContainer(n: Node)
  {
    n.ArrayNode? || n.ObjectNode? || n.ElementNode?
  }

  /** One array item line: the item indented one level deeper than its array,
      a comma unless it is the last shown item. */
  function ItemLine(indent: nat, t: string, more: bool): string
  {
    Indent(indent + 2) + t + (if more then "," else "") + "\n"
  }

  /** One member line; `printedKey` is the key as printed. */
  function MemberLine(indent: nat, printedKey: string, t: string, more: bool): string
  {
    Indent(indent + 2) + printedKey + ": " + t + (if more then "," else "") + "\n"
  }

  /** The listed keys as printed. */
  function KeyLabels(ps: seq<Prop>): (labels: seq<string>)
    ensures |labels| == |ps| && forall i :: 0 <= i < |ps| ==> labels[i] == QuoteKey(ps[i].key)
  {
    seq(|ps|, i requires 0 <= i < |ps| => QuoteKey(ps[i].key))
  }

  function PropValues(ps: seq<Prop>): (vs: seq<Value>)
    ensures |vs| == |ps| && forall i :: 0 <= i < |ps| ==> vs[i] == ps[i].value
  {
    seq(|ps|, i requires 0 <= i < |ps| => ps[i].value)
  }

  lemma PropValuesIn(heap: Heap, ps: seq<Prop>)
    requires PropsIn(heap, ps)
    ensures AllIn(heap, PropValues(ps))
  {
    forall x | x in PropValues(ps) ensures ValueIn(heap, x) {
      var i :| 0 <= i < |ps| && PropValues(ps)[i] == x;
      assert ps[i] in ps;
    }
  }

  // ---- the pretty printer, as a function ----

  /** `_prettyPrintObject(v, indent, depth)` with the objects in `visited`
      currently marked. */
  function Pretty(heap: Heap, visited: set<nat>, v: Value, indent: nat, depth: nat): Outcome
    requires Closed(heap) && ValueIn(heap, v)
    decreases Rank(depth), 3
  {
    if depth > MaxDepth then Done(MaxDepthText)
    else
      match v
      case Undefined => Done("undefined")
      case Null => Done("null")
      case Str(s) => Done(QuoteString(s))
      case Bool(b) => Done(if b then "true" else "false")
      case Num(t) => Done(t)
      case Func(_, source) => Done(source)
      case Ref(id) => PrettyObject(heap, visited, id, indent, depth)
  }

  function PrettyObject(heap: Heap, visited: set<nat>, id: nat, indent: nat, depth: nat): Outcome
    requires Closed(heap) && id in heap && depth <= MaxDepth
    decreases Rank(depth), 2
  {
    var node := heap[id];
    if node.WrapperNode? then Done("[object: " + node.primitive + "]")
    else if node.DateNode? then
      (if node.iso.None? then Threw(InvalidDate) else Done("[Date: " + node.iso.value + "]"))
    else if node.ErrorNode? then Done(ErrorText(node.message, node.stack, indent))
    else if id in visited || OwnMarked(node) then Done(CircularText)
    else if node.ArrayNode? then ArrayText(heap, visited + {id}, node.items, indent, depth)
    else if BrokenHasOwn(node) then Threw(HasOwnNotCallable)
    else
      var ps := Listed(MembersOf(node));
      PropValuesIn(heap, ps);
      ObjectText(heap, visited + {id}, KeyLabels(ps), PropValues(ps), indent, depth)
  }

  function ArrayText(heap: Heap, visited: set<nat>, items: seq<Value>, indent: nat, depth: nat): Outcome
    requires Closed(heap) && AllIn(heap, items) && depth <= MaxDepth
    decreases Rank(depth), 1
  {
    if |items| == 0 then Done("[]")
    else
      var show := Min(|items|, MaxArrayLength);
      match Items(heap, visited, items, show, show, indent, depth)
      case Threw(e) => Threw(e)
      case Done(body) => Done("[\n" + body + ArrayTail(|items|, indent))
  }

  /** What follows the shown items: the count of the hidden ones, if any, and
      the closing bracket. */
  function ArrayTail(n: nat, indent: nat): string
  {
    (if n > MaxArrayLength
     then Indent(indent + 2) + "... (" + NatToString(n - MaxArrayLength) + " more items)\n"
     else "")
    + Indent(indent) + "]"
  }

  /** The lines of the first `k` of `show` array items. */
  function Items(heap: Heap, visited: set<nat>, items: seq<Value>, k: nat, show: nat, indent: nat, depth: nat): Outcome
    requires Closed(heap) && AllIn(heap, items) && depth <= MaxDepth && k <= show <= |items|
    decreases Rank(depth), 0, k
  {
    if k == 0 then Done("")
    else
      match Items(heap, visited, items, k - 1, show, indent, depth)
      case Threw(e) => Threw(e)
      case Done(pre) =>
        assert items[k - 1] in items;
        match ItemEntry(heap, visited, items[k - 1], k - 1 < show - 1, indent, depth)
        case Threw(e) => Threw(e)
        case Done(line) => Done(pre + line)
  }

  /** The line of one array item, or the error printing it threw. */
  function ItemEntry(heap: Heap, visited: set<nat>, v: Value, more: bool, indent: nat, depth: nat): Outcome
    requires Closed(heap) && ValueIn(heap, v) && depth <= MaxDepth
    decreases Rank(depth), 0, 0
  {
    match Pretty(heap, visited, v, indent + 2, depth + 1)
    case Threw(e) => Threw(e)
    case Done(t) => Done(ItemLine(indent, t, more))
  }

  function ObjectText(heap: Heap, visited: set<nat>, labels: seq<string>, values: seq<Value>, indent: nat, depth: nat): Outcome
    requires Closed(heap) && |labels| == |values| && AllIn(heap, values) && depth <= MaxDepth
    decreases Rank(depth), 1
  {
    if |values| == 0 then Done("{}")
    else
      match Members(heap, visited, labels, values, |values|, indent, depth)
      case Threw(e) => Threw(e)
      case Done(body) => Done("{\n" + body + Indent(indent) + "}")
  }

  /** The lines of the first `k` listed members. */
  function Members(heap: Heap, visited: set<nat>, labels: seq<string>, values: seq<Value>, k: nat, indent: nat, depth: nat): Outcome
    requires Closed(heap) && |labels| == |values| && AllIn(heap, values) && depth <= MaxDepth && k <= |values|
    decreases Rank(depth), 0, k
  {
    if k == 0 then Done("")
    else
      match Members(heap, visited, labels, values, k - 1, indent, depth)
      case Threw(e) => Threw(e)
      case Done(pre) =>
        assert values[k - 1] in values;
        match MemberEntry(heap, visited, labels[k - 1], values[k - 1], k - 1 < |values| - 1, indent, depth)
        case Threw(e) => Threw(e)
        case Done(line) => Done(pre + line)
  }

  /** The line of one member, `key: value`, or the error printing the value
      threw. */
  function MemberEntry(heap: Heap, visited: set<nat>, printedKey: string, v: Value, more: bool, indent: nat, depth: nat): Outcome
    requires Closed(heap) && ValueIn(heap, v) && depth <= MaxDepth
    decreases Rank(depth), 0, 0
  {
    match Pretty(heap, visited, v, indent + 2, depth + 1)
    case Threw(e) => Threw(e)
    case Done(t) => Done(MemberLine(indent, printedKey, t, more))
  }

  // ---- the pretty printer, as the code runs it ----

  /** The objects currently carrying the marker. */
  class Marker {
    var visited: set<nat>

    constructor ()
      ensures visited == {}
    {
      visited := {};
    }

    method Print(heap: Heap, v: Value, indent: nat, depth: nat) returns (r: Outcome)
      requires Closed(heap) && ValueIn(heap, v)
      modifies this
      ensures visited == old(visited)
      ensures r == Pretty(heap, old(visited), v, indent, depth)
      decreases Rank(depth), 2
    {
      if depth > MaxDepth {
        return Done(MaxDepthText);
      }
      match v {
        case Undefined => r := Done("undefined");
        case Null => r := Done("null");
        case Str(s) => r := Done(QuoteString(s));
        case Bool(b) => r := Done(if b then "true" else "false");
        case Num(t) => r := Done(t);
        case Func(_, source) => r := Done(source);
        case Ref(id) => r := PrintObject(heap, id, indent, depth);
      }
    }

    /** Marks the object, prints its items or members, and removes the mark
        again on every way out, as the `finally` block does. */
    method PrintObject(heap: Heap, id: nat, indent: nat, depth: nat) returns (r: Outcome)
      requires Closed(heap) && id in heap && depth <= MaxDepth
      modifies this
      ensures visited == old(visited)
      ensures r == PrettyObject(heap, old(visited), id, indent, depth)
      decreases Rank(depth), 1
    {
      var node := heap[id];
      if node.WrapperNode? {
        return Done("[object: " + node.primitive + "]");
      }
      if node.DateNode? {
        if node.iso.None? {
          return Threw(InvalidDate);
        }
        return Done("[Date: " + node.iso.value + "]");
      }
      if node.ErrorNode? {
        return Done(ErrorText(node.message, node.stack, indent));
      }
      if id in visited || OwnMarked(node) {
        return Done(CircularText);
      }
      visited := visited + {id};
      if node.ArrayNode? {
        r := PrintArray(heap, node.items, indent, depth);
      } else if BrokenHasOwn(node) {
        r := Threw(HasOwnNotCallable);
      } else {
        var keys := ListKeys(MembersOf(node));
        PropValuesIn(heap, keys);
        r := PrintMembers(heap, keys, indent, depth);
      }
      visited := visited - {id};
    }

    /** The array branch: at most `MaxArrayLength` items, then a count of the
        rest. */
    method PrintArray(heap: Heap, items: seq<Value>, indent: nat, depth: nat) returns (r: Outcome)
      requires Closed(heap) && AllIn(heap, items) && depth <= MaxDepth
      modifies this
      ensures visited == old(visited)
      ensures r == ArrayText(heap, old(visited), items, indent, depth)
      decreases Rank(depth), 0, 1
    {
      if |items| == 0 {
        return Done("[]");
      }
      var nextIndent := Indent(indent + 2);
      var show := Min(|items|, MaxArrayLength);
      var body := "";
      var i := 0;
      while i < show
        invariant 0 <= i <= show
        invariant visited == old(visited)
        invariant Items(heap, visited, items, i, show, indent, depth) == Done(body)
      {
        assert items[i] in items;
        var e := PrintItem(heap, items[i], i < show - 1, indent, depth);
        if e.Threw? {
          ItemsThrowEndsArray(heap, visited, items, i, show, indent, depth);
          return e;
        }
        ItemsStep(heap, visited, items, i, show, indent, depth);
        body := body + e.text;
        i := i + 1;
      }
      var more := "";
      if |items| > MaxArrayLength {
        more := nextIndent + "... (" + NatToString(|items| - MaxArrayLength) + " more items)\n";
      }
      var tail := more + Indent(indent) + "]";
      r := Done("[\n" + body + tail);
    }

    /** The `for (key in obj)` loop collecting own keys other than the marker. */
    static method ListKeys(props: seq<Prop>) returns (keys: seq<Prop>)
      ensures keys == Listed(props)
    {
      keys := [];
      var j := 0;
      while j < |props|
        invariant 0 <= j <= |props|
        invariant keys == Listed(props[..j])
      {
        assert props[..j + 1][..j] == props[..j];
        if props[j].key != MarkerKey {
          keys := keys + [props[j]];
        }
        j := j + 1;
      }
      assert props[..|props|] == props;
    }

    /** The object branch: one `key: value` line per listed key. */
    method PrintMembers(heap: Heap, keys: seq<Prop>, indent: nat, depth: nat) returns (r: Outcome)
      requires Closed(heap) && AllIn(heap, PropValues(keys)) && depth <= MaxDepth
      modifies this
      ensures visited == old(visited)
      ensures r == ObjectText(heap, old(visited), KeyLabels(keys), PropValues(keys), indent, depth)
      decreases Rank(depth), 0, 1
    {
      if |keys| == 0 {
        return Done("{}");
      }
      ghost var labels, values := KeyLabels(keys), PropValues(keys);
      var body := "";
      var k := 0;
      while k < |keys|
        invariant 0 <= k <= |keys|
        invariant visited == old(visited)
        invariant Members(heap, visited, labels, values, k, indent, depth) == Done(body)
      {
        var key := keys[k];
        assert values[k] == key.value && values[k] in values;
        var e := PrintMember(heap, QuoteKey(key.key), key.value, k < |keys| - 1, indent, depth);
        if e.Threw? {
          MembersThrowEndsObject(heap, visited, labels, values, k, indent, depth);
          return e;
        }
        MembersStep(heap, visited, labels, values, k, indent, depth);
        body := body + e.text;
        k := k + 1;
      }
      r := Done("{\n" + body + Indent(indent) + "}");
    }

    /** One item line, as the body of the code's array loop. */
    method PrintItem(heap: Heap, v: Value, more: bool, indent: nat, depth: nat) returns (e: Outcome)
      requires Closed(heap) && ValueIn(heap, v) && depth <= MaxDepth
      modifies this
      ensures visited == old(visited)
      ensures e == ItemEntry(heap, old(visited), v, more, indent, depth)
      decreases Rank(depth), 0, 0
    {
      var t := Print(heap, v, indent + 2, depth + 1);
      if t.Threw? {
        return t;
      }
      e := Done(ItemLine(indent, t.text, more));
    }

    /** One member line, as the body of the code's `keys.forEach`. */
    method PrintMember(heap: Heap, printedKey: string, v: Value, more: bool, indent: nat, depth: nat) returns (e: Outcome)
      requires Closed(heap) && ValueIn(heap, v) && depth <= MaxDepth
      modifies this
      ensures visited == old(visited)
      ensures e == MemberEntry(heap, old(visited), printedKey, v, more, indent, depth)
      decreases Rank(depth), 0, 0
    {
      var t := Print(heap, v, indent + 2, depth + 1);
      if t.Threw? {
        return t;
      }
      e := Done(MemberLine(indent, printedKey, t.text, more));
    }
  }

  lemma ItemsStep(heap: Heap, visited: set<nat>, items: seq<Value>, k: nat, show: nat, indent: nat, depth: nat)
    requires Closed(heap) && AllIn(heap, items) && depth <= MaxDepth && k < show <= |items|
    requires Items(heap, visited, items, k, show, indent, depth).Done?
    requires items[k] in items && ItemEntry(heap, visited, items[k], k < show - 1, indent, depth).Done?
    ensures Items(heap, visited, items, k + 1, show, indent, depth)
            == Done(Items(heap, visited, items, k, show, indent, depth).text
                    + ItemEntry(heap, visited, items[k], k < show - 1, indent, depth).text)
  {
  }

  lemma ItemsThrowEndsArray(heap: Heap, visited: set<nat>, items: seq<Value>, k: nat, show: nat, indent: nat, depth: nat)
    requires Closed(heap) && AllIn(heap, items) && depth <= MaxDepth && k < show && show == Min(|items|, MaxArrayLength)
    requires Items(heap, visited, items, k, show, indent, depth).Done?
    requires items[k] in items && ItemEntry(heap, visited, items[k], k < show - 1, indent, depth).Threw?
    ensures ArrayText(heap, visited, items, indent, depth) == ItemEntry(heap, visited, items[k], k < show - 1, indent, depth)
  {
    ItemsThrowPropagates(heap, visited, items, k + 1, show, show, indent, depth);
  }

  /** A thrown error ends the loop: every longer prefix throws it too. */
  lemma {:induction false} ItemsThrowPropagates(heap: Heap, visited: set<nat>, items: seq<Value>, k: nat, j: nat, show: nat, indent: nat, depth: nat)
    requires Closed(heap) && AllIn(heap, items) && depth <= MaxDepth && k <= j <= show <= |items|
    requires Items(heap, visited, items, k, show, indent, depth).Threw?
    ensures Items(heap, visited, items, j, show, indent, depth) == Items(heap, visited, items, k, show, indent, depth)
    decreases j
  {
    if j > k {
      ItemsThrowPropagates(heap, visited, items, k, j - 1, show, indent, depth);
    }
  }

  lemma {:induction false} MembersThrowPropagates(heap: Heap, visited: set<nat>, labels: seq<string>, values: seq<Value>, k: nat, j: nat, indent: nat, depth: nat)
    requires Closed(heap) && |labels| == |values| && AllIn(heap, values) && depth <= MaxDepth && k <= j <= |values|
    requires Members(heap, visited, labels, values, k, indent, depth).Threw?
    ensures Members(heap, visited, labels, values, j, indent, depth) == Members(heap, visited, labels, values, k, indent, depth)
    decreases j
  {
    if j > k {
      MembersThrowPropagates(heap, visited, labels, values, k, j - 1, indent, depth);
    }
  }

  lemma MembersThrowEndsObject(heap: Heap, visited: set<nat>, labels: seq<string>, values: seq<Value>, k: nat, indent: nat, depth: nat)
    requires Closed(heap) && |labels| == |values| && AllIn(heap, values) && depth <= MaxDepth && k < |values|
    requires Members(heap, visited, labels, values, k, indent, depth).Done?
    requires values[k] in values && MemberEntry(heap, visited, labels[k], values[k], k < |values| - 1, indent, depth).Threw?
    ensures ObjectText(heap, visited, labels, values, indent, depth) == MemberEntry(heap, visited, labels[k], values[k], k < |values| - 1, indent, depth)
  {
    MembersThrowPropagates(heap, visited, labels, values, k + 1, |values|, indent, depth);
  }

  lemma MembersStep(heap: Heap, visited: set<nat>, labels: seq<string>, values: seq<Value>, k: nat, indent: nat, depth: nat)
    requires Closed(heap) && |labels| == |values| && AllIn(heap, values) && depth <= MaxDepth && k < |values|
    requires Members(heap, visited, labels, values, k, indent, depth).Done?
    requires values[k] in values && MemberEntry(heap, visited, labels[k], values[k], k < |values| - 1, indent, depth).Done?
    ensures Members(heap, visited, labels, values, k + 1, indent, depth)
            == Done(Members(heap, visited, labels, values, k, indent, depth).text
                    + MemberEntry(heap, visited, labels[k], values[k], k < |values| - 1, indent, depth).text)
  {
  }

  // ---- _convertToString ----

  /** The body of the `try` in `_convertToString`. `stringify` stands for
      `JSON.stringify(v, null, 2)`, which may throw. */
  function Primary(heap: Heap, v: Value, pretty: bool, stringify: Value -> Outcome): Outcome
    requires Closed(heap) && ValueIn(heap, v)
  {
    match v
    case Undefined => Done("undefined")
    case Null => Done("null")
    case Str(s) => Done(s)
    case Func(name, _) => Done("[Function: " + (if name == "" then "anonymous" else name) + "]")
    case Ref(id) =>
      (match heap[id]
       case ErrorNode(m, st) => Done("[Error: " + m + (if st == "" then "" else " Stack: " + st) + "]")
       case ElementNode(tag, eid, classes, _) =>
         Done("<" + Lower(tag) + (if eid == "" then "" else "#" + eid)
              + (if |classes| > 0 then "." + Join(classes, ".") else "") + ">")
       case _ => if pretty then Pretty(heap, {}, v, 0, 0) else stringify(v))
    case _ => stringify(v)
  }

  predicate IsCircularError(e: Exception)
  {
    e.isTypeError && Contains(Lower(e.message), "circular structure")
  }

  /** `_convertToString(v)`: never throws. A failure of the primary conversion
      becomes `[Circular Object]`, `String(v)` (`coerce`) or, when that
      throws too, a fixed placeholder naming the first error. */
  function ConvertToString(heap: Heap, v: Value, pretty: bool,
                           stringify: Value -> Outcome, coerce: Value -> Outcome): (r: string)
    requires Closed(heap) && ValueIn(heap, v)
    ensures Primary(heap, v, pretty, stringify).Done? ==> r == Primary(heap, v, pretty, stringify).text
    ensures Primary(heap, v, pretty, stringify).Threw? ==>
              r == "[Circular Object]"
              || (coerce(v).Done? && r == coerce(v).text)
              || IsPrefix("[Object cannot be stringified: ", r)
  {
    match Primary(heap, v, pretty, stringify)
    case Done(t) => t
    case Threw(e) =>
      if IsCircularError(e) then "[Circular Object]"
      else
        match coerce(v)
        case Done(t) => t
        case Threw(_) => "[Object cannot be stringified: " + e.message + "]"
  }

  /** `messageArray.map(_convertToString).join(' ')`. */
  function MessageText(heap: Heap, args: seq<Value>, pretty: bool,
                       stringify: Value -> Outcome, coerce: Value -> Outcome): string
    requires Closed(heap) && AllIn(heap, args)
  {
    Join(seq(|args|, i requires 0 <= i < |args| => (assert args[i] in args; ConvertToString(heap, args[i], pretty, stringify, coerce))), " ")
  }

  /** A logger-generated message is a single string argument and is shown as
      is. */
  lemma OneStringMessage(heap: Heap, text: string, pretty: bool,
                         stringify: Value -> Outcome, coerce: Value -> Outcome)
    requires Closed(heap)
    ensures MessageText(heap, [Str(text)], pretty, stringify, coerce) == text
  {
  }

  // ---- properties of the pretty printer ----

  /** No invalid date and no object whose own `hasOwnProperty` is not a
      function. */
  predicate Printable(heap: Heap)
  {
    forall id :: id in heap ==> heap[id] != DateNode(None) && !BrokenHasOwn(heap[id])
  }

  /** The printer's only possible exceptions are the RangeError of an invalid
      date and the TypeError of a shadowed `hasOwnProperty`, and without such
      objects it always returns text: depth, cycles, long arrays and long
      strings are all handled without throwing. */
  lemma {:induction false} PrettyOutcome(heap: Heap, visited: set<nat>, v: Value, indent: nat, depth: nat)
    requires Closed(heap) && ValueIn(heap, v)
    ensures Pretty(heap, visited, v, indent, depth).Threw? ==> PrinterError(Pretty(heap, visited, v, indent, depth).error)
    ensures Printable(heap) ==> Pretty(heap, visited, v, indent, depth).Done?
    decreases Rank(depth), 3
  {
    if depth <= MaxDepth && v.Ref? {
      PrettyObjectOutcome(heap, visited, v.id, indent, depth);
    }
  }

  lemma {:induction false} PrettyObjectOutcome(heap: Heap, visited: set<nat>, id: nat, indent: nat, depth: nat)
    requires Closed(heap) && id in heap && depth <= MaxDepth
    ensures PrettyObject(heap, visited, id, indent, depth).Threw? ==> PrinterError(PrettyObject(heap, visited, id, indent, depth).error)
    ensures Printable(heap) ==> PrettyObject(heap, visited, id, indent, depth).Done?
    decreases Rank(depth), 2
  {
    var node := heap[id];
    assert NodeClosed(heap, node);
    if IsContainer(node) && id !in visited && !OwnMarked(node) {
      if node.ArrayNode? {
        ArrayTextOutcome(heap, visited + {id}, node.items, indent, depth);
      } else if !BrokenHasOwn(node) {
        var ps := Listed(MembersOf(node));
        PropValuesIn(heap, ps);
        ObjectTextOutcome(heap, visited + {id}, KeyLabels(ps), PropValues(ps), indent, depth);
      }
    }
  }

  lemma {:induction false} ArrayTextOutcome(heap: Heap, visited: set<nat>, items: seq<Value>, indent: nat, depth: nat)
    requires Closed(heap) && AllIn(heap, items) && depth <= MaxDepth
    ensures ArrayText(heap, visited, items, indent, depth).Threw? ==> PrinterError(ArrayText(heap, visited, items, indent, depth).error)
    ensures Printable(heap) ==> ArrayText(heap, visited, items, indent, depth).Done?
    decreases Rank(depth), 1
  {
    if |items| > 0 {
      var show := Min(|items|, MaxArrayLength);
      ItemsOutcome(heap, visited, items, show, show, indent, depth);
    }
  }

  lemma {:induction false} ItemsOutcome(heap: Heap, visited: set<nat>, items: seq<Value>, k: nat, show: nat, indent: nat, depth: nat)
    requires Closed(heap) && AllIn(heap, items) && depth <= MaxDepth && k <= show <= |items|
    ensures Items(heap, visited, items, k, show, indent, depth).Threw? ==> PrinterError(Items(heap, visited, items, k, show, indent, depth).error)
    ensures Printable(heap) ==> Items(heap, visited, items, k, show, indent, depth).Done?
    decreases Rank(depth), 0, k
  {
    if k > 0 {
      ItemsOutcome(heap, visited, items, k - 1, show, indent, depth);
      assert items[k - 1] in items;
      PrettyOutcome(heap, visited, items[k - 1], indent + 2, depth + 1);
    }
  }

  lemma {:induction false} ObjectTextOutcome(heap: Heap, visited: set<nat>, labels: seq<string>, values: seq<Value>, indent: nat, depth: nat)
    requires Closed(heap) && |labels| == |values| && AllIn(heap, values) && depth <= MaxDepth
    ensures ObjectText(heap, visited, labels, values, indent, depth).Threw? ==> PrinterError(ObjectText(heap, visited, labels, values, indent, depth).error)
    ensures Printable(heap) ==> ObjectText(heap, visited, labels, values, indent, depth).Done?
    decreases Rank(depth), 1
  {
    if |values| > 0 {
      MembersOutcome(heap, visited, labels, values, |values|, indent, depth);
    }
  }

  lemma {:induction false} MembersOutcome(heap: Heap, visited: set<nat>, labels: seq<string>, values: seq<Value>, k: nat, indent: nat, depth: nat)
    requires Closed(heap) && |labels| == |values| && AllIn(heap, values) && depth <= MaxDepth && k <= |values|
    ensures Members(heap, visited, labels, values, k, indent, depth).Threw? ==> PrinterError(Members(heap, visited, labels, values, k, indent, depth).error)
    ensures Printable(heap) ==> Members(heap, visited, labels, values, k, indent, depth).Done?
    decreases Rank(depth), 0, k
  {
    if k > 0 {
      MembersOutcome(heap, visited, labels, values, k - 1, indent, depth);
      assert values[k - 1] in values;
      PrettyOutcome(heap, visited, values[k - 1], indent + 2, depth + 1);
    }
  }

  /** Beyond the depth limit every value, cyclic or not, prints as the
      max-depth marker. */
  lemma MaxDepthCutoff(heap: Heap, visited: set<nat>, v: Value, indent: nat, depth: nat)
    requires Closed(heap) && ValueIn(heap, v) && depth > MaxDepth
    ensures Pretty(heap, visited, v, indent, depth) == Done(MaxDepthText)
  {
  }

  /** An object reached again while it is still being printed prints as the
      circular-reference marker instead of being descended into. */
  lemma RevisitIsCircular(heap: Heap, visited: set<nat>, id: nat, indent: nat, depth: nat)
    requires Closed(heap) && id in heap && IsContainer(heap[id]) && id in visited && depth <= MaxDepth
    ensures Pretty(heap, visited, Ref(id), indent, depth) == Done(CircularText)
  {
  }

  /** An object that already carries a truthy marker of its own is taken for
      one being printed: it renders as the circular-reference marker, even on
      first sight. */
  lemma OwnMarkIsCircular(heap: Heap, visited: set<nat>, id: nat, indent: nat, depth: nat)
    requires Closed(heap) && id in heap && IsContainer(heap[id]) && OwnMarked(heap[id]) && depth <= MaxDepth
    ensures Pretty(heap, visited, Ref(id), indent, depth) == Done(CircularText)
  {
  }

  /** `{__xmediaLoggerVisited__: true}` on its own prints as
      `"[Circular Reference]"`, while a falsy own marker is ignored and left
      out of the listing, so `{__xmediaLoggerVisited__: 0}` prints as `{}`. */
  lemma OwnMarkExamples()
    ensures Pretty(map[0 := ObjectNode([Prop(MarkerKey, Bool(true))])], {}, Ref(0), 0, 0) == Done(CircularText)
    ensures Pretty(map[0 := ObjectNode([Prop(MarkerKey, Num("0"))])], {}, Ref(0), 0, 0) == Done("{}")
  {
    var marked := ObjectNode([Prop(MarkerKey, Bool(true))]);
    assert OwnValue(marked.props, MarkerKey) == Some(Bool(true));
    var unmarked := ObjectNode([Prop(MarkerKey, Num("0"))]);
    assert OwnValue(unmarked.props, MarkerKey) == Some(Num("0"));
    assert OwnValue(unmarked.props, "hasOwnProperty") == None;
    assert Listed(unmarked.props) == [];
  }

  /** An unmarked plain object or element whose own `hasOwnProperty` is not a
      function throws the TypeError of the key loop. */
  lemma BrokenHasOwnThrows(heap: Heap, visited: set<nat>, id: nat, indent: nat, depth: nat)
    requires Closed(heap) && id in heap && (heap[id].ObjectNode? || heap[id].ElementNode?)
    requires id !in visited && !OwnMarked(heap[id]) && BrokenHasOwn(heap[id]) && depth <= MaxDepth
    ensures Pretty(heap, visited, Ref(id), indent, depth) == Threw(HasOwnNotCallable)
  {
  }

  /** `{hasOwnProperty: 1}` cannot be pretty-printed. */
  lemma HasOwnNumberThrows()
    ensures Pretty(map[0 := ObjectNode([Prop("hasOwnProperty", Num("1"))])], {}, Ref(0), 0, 0) == Threw(HasOwnNotCallable)
  {
    var heap := map[0 := ObjectNode([Prop("hasOwnProperty", Num("1"))])];
    assert OwnValue(heap[0].props, MarkerKey) == None;
    assert OwnValue(heap[0].props, "hasOwnProperty") == Some(Num("1"));
    BrokenHasOwnThrows(heap, {}, 0, 0, 0);
  }

  /** With a function as its own `hasOwnProperty` the object prints. */
  lemma HasOwnFunctionPrints()
    ensures Pretty(map[0 := ObjectNode([Prop("hasOwnProperty", Func("f", "function f() {}"))])], {}, Ref(0), 0, 0).Done?
  {
    var heap := map[0 := ObjectNode([Prop("hasOwnProperty", Func("f", "function f() {}"))])];
    assert OwnValue(heap[0].props, "hasOwnProperty") == Some(Func("f", "function f() {}"));
    assert Printable(heap);
    assert Closed(heap) by {
      assert NodeClosed(heap, heap[0]);
    }
    PrettyOutcome(heap, {}, Ref(0), 0, 0);
  }

  /** Printing a line-by-line accumulation only ever extends what is already
      printed. */
  lemma {:induction false} ItemsExtend(heap: Heap, visited: set<nat>, items: seq<Value>, j: nat, k: nat, show: nat, indent: nat, depth: nat)
    requires Closed(heap) && AllIn(heap, items) && depth <= MaxDepth && j <= k <= show <= |items|
    requires Items(heap, visited, items, k, show, indent, depth).Done?
    ensures Items(heap, visited, items, j, show, indent, depth).Done?
    ensures IsPrefix(Items(heap, visited, items, j, show, indent, depth).text, Items(heap, visited, items, k, show, indent, depth).text)
    decreases k
  {
    if j < k {
      ItemsExtend(heap, visited, items, j, k - 1, show, indent, depth);
      var a := Items(heap, visited, items, j, show, indent, depth).text;
      var b := Items(heap, visited, items, k - 1, show, indent, depth).text;
      var c := Items(heap, visited, items, k, show, indent, depth).text;
      assert IsPrefix(b, c);
      assert c[..|a|] == b[..|a|];
    }
  }

  /** An array whose first element is the array itself prints, without
      throwing, a text that contains the circular-reference marker. */
  lemma SelfReferenceIsCircular(heap: Heap, visited: set<nat>, id: nat, indent: nat, depth: nat)
    requires Closed(heap) && Printable(heap) && id in heap && id !in visited && depth < MaxDepth
    requires heap[id].ArrayNode? && |heap[id].items| > 0 && heap[id].items[0] == Ref(id)
    ensures Pretty(heap, visited, Ref(id), indent, depth).Done?
    ensures Contains(Pretty(heap, visited, Ref(id), indent, depth).text, CircularText)
  {
    var items := heap[id].items;
    var marked := visited + {id};
    assert NodeClosed(heap, heap[id]);
    var show := Min(|items|, MaxArrayLength);
    var first := FirstItemIsCircular(heap, marked, id, items, show, indent, depth);
    ItemsOutcome(heap, marked, items, show, show, indent, depth);
    ItemsExtend(heap, marked, items, 1, show, show, indent, depth);
    var body := Items(heap, marked, items, show, show, indent, depth).text;
    assert Pretty(heap, visited, Ref(id), indent, depth) == ArrayText(heap, marked, items, indent, depth);
    LineFound(Indent(indent + 2), (if 0 < show - 1 then "," else "") + "\n", first, body, ArrayTail(|items|, indent));
  }

  lemma LineFound(ind: string, sep: string, first: string, body: string, tail: string)
    requires first == ind + CircularText + sep && IsPrefix(first, body)
    ensures Contains("[\n" + body + tail, CircularText)
  {
    var rest := body[|first|..];
    assert body == first + rest;
    assert "[\n" + body + tail == ("[\n" + ind) + CircularText + (sep + rest + tail);
    ContainsMiddle("[\n" + ind, CircularText, sep + rest + tail);
  }

  lemma FirstItemIsCircular(heap: Heap, marked: set<nat>, id: nat, items: seq<Value>, show: nat, indent: nat, depth: nat)
    returns (first: string)
    requires Closed(heap) && AllIn(heap, items) && depth < MaxDepth && 1 <= show <= |items|
    requires id in heap && heap[id].ArrayNode? && id in marked && items[0] == Ref(id)
    ensures first == ItemLine(indent, CircularText, 0 < show - 1)
    ensures Items(heap, marked, items, 1, show, indent, depth) == Done(first)
  {
    RevisitIsCircular(heap, marked, id, indent + 2, depth + 1);
    assert items[0] in items;
    first := ItemLine(indent, CircularText, 0 < show - 1);
    assert Items(heap, marked, items, 0, show, indent, depth) == Done("");
    assert "" + first == first;
  }

  lemma {:induction false} ItemsAgree(heap: Heap, visited: set<nat>, a: seq<Value>, b: seq<Value>, k: nat, show: nat, indent: nat, depth: nat)
    requires Closed(heap) && AllIn(heap, a) && AllIn(heap, b) && depth <= MaxDepth
    requires k <= show <= |a| && show <= |b| && a[..show] == b[..show]
    ensures Items(heap, visited, a, k, show, indent, depth) == Items(heap, visited, b, k, show, indent, depth)
    decreases k
  {
    if k > 0 {
      ItemsAgree(heap, visited, a, b, k - 1, show, indent, depth);
      assert a[k - 1] == a[..show][k - 1] == b[k - 1];
    }
  }

  /** Items past the fiftieth are never printed: two arrays of the same length
      that agree on their shown prefix print identically. */
  lemma ArrayTailIsNotPrinted(heap: Heap, visited: set<nat>, a: seq<Value>, b: seq<Value>, indent: nat, depth: nat)
    requires Closed(heap) && AllIn(heap, a) && AllIn(heap, b) && depth <= MaxDepth
    requires |a| == |b| && a[..Min(|a|, MaxArrayLength)] == b[..Min(|b|, MaxArrayLength)]
    ensures ArrayText(heap, visited, a, indent, depth) == ArrayText(heap, visited, b, indent, depth)
  {
    var show := Min(|a|, MaxArrayLength);
    ItemsAgree(heap, visited, a, b, show, show, indent, depth);
  }

  // ---- string escaping ----

  /** The escape of one character of a short string. */
  function EscapeChar(c: char): string
  {
    if c == '\\' then "\\\\"
    else if c == '"' then "\\\""
    else if c == '\n' then "\\n"
    else if c == '\r' then "\\r"
    else if c == '\t' then "\\t"
    else [c]
  }

  /** Character-wise escaping, the reference the replacement chain is proved
      against. */
  function EscapeEach(s: string): string
  {
    if s == [] then [] else EscapeChar(s[0]) + EscapeEach(s[1..])
  }

  /** Reading an escaped string back. */
  function Unescape(t: string): string
  {
    if t == [] then []
    else if t[0] == '\\' && |t| >= 2 then
      [if t[1] == 'n' then '\n' else if t[1] == 'r' then '\r' else if t[1] == 't' then '\t' else t[1]]
      + Unescape(t[2..])
    else [t[0]] + Unescape(t[1..])
  }

  lemma EscapeStringAppend(a: string, b: string)
    ensures EscapeString(a + b) == EscapeString(a) + EscapeString(b)
  {
    ReplaceCharAppend(a, b, '\\', "\\\\");
    var a1, b1 := ReplaceChar(a, '\\', "\\\\"), ReplaceChar(b, '\\', "\\\\");
    ReplaceCharAppend(a1, b1, '"', "\\\"");
    var a2, b2 := ReplaceChar(a1, '"', "\\\""), ReplaceChar(b1, '"', "\\\"");
    ReplaceCharAppend(a2, b2, '\n', "\\n");
    var a3, b3 := ReplaceChar(a2, '\n', "\\n"), ReplaceChar(b2, '\n', "\\n");
    ReplaceCharAppend(a3, b3, '\r', "\\r");
    var a4, b4 := ReplaceChar(a3, '\r', "\\r"), ReplaceChar(b3, '\r', "\\r");
    ReplaceCharAppend(a4, b4, '\t', "\\t");
  }

  /** Once a character has been replaced by its escape, none of the later
      replacements of the chain touches that escape. */
  lemma EscapeStringChar(c: char)
    ensures EscapeString([c]) == EscapeChar(c)
  {
    ReplaceCharOne(c, '\\', "\\\\");
    var s1 := ReplaceChar([c], '\\', "\\\\");
    if c == '\\' {
      ReplaceCharAbsent(s1, '"', "\\\"");
      ReplaceCharAbsent(s1, '\n', "\\n");
      ReplaceCharAbsent(s1, '\r', "\\r");
      ReplaceCharAbsent(s1, '\t', "\\t");
      return;
    }
    ReplaceCharOne(c, '"', "\\\"");
    var s2 := ReplaceChar(s1, '"', "\\\"");
    if c == '"' {
      ReplaceCharAbsent(s2, '\n', "\\n");
      ReplaceCharAbsent(s2, '\r', "\\r");
      ReplaceCharAbsent(s2, '\t', "\\t");
      return;
    }
    ReplaceCharOne(c, '\n', "\\n");
    var s3 := ReplaceChar(s2, '\n', "\\n");
    if c == '\n' {
      ReplaceCharAbsent(s3, '\r', "\\r");
      ReplaceCharAbsent(s3, '\t', "\\t");
      return;
    }
    ReplaceCharOne(c, '\r', "\\r");
    var s4 := ReplaceChar(s3, '\r', "\\r");
    if c == '\r' {
      ReplaceCharAbsent(s4, '\t', "\\t");
      return;
    }
    ReplaceCharOne(c, '\t', "\\t");
  }

  /** The chain of five global replacements escapes every character on its
      own: no replacement rewrites what an earlier one inserted. */
  lemma {:induction false} EscapeStringIsEscapeEach(s: string)
    ensures EscapeString(s) == EscapeEach(s)
    decreases |s|
  {
    if s != [] {
      assert s == [s[0]] + s[1..];
      EscapeStringAppend([s[0]], s[1..]);
      EscapeStringChar(s[0]);
      EscapeStringIsEscapeEach(s[1..]);
    } else {
      assert EscapeString(s) == [];
    }
  }

  lemma {:induction false} UnescapeEscapeEach(s: string)
    ensures Unescape(EscapeEach(s)) == s
    decreases |s|
  {
    if s != [] {
      var e := EscapeChar(s[0]);
      var rest := EscapeEach(s[1..]);
      assert EscapeEach(s) == e + rest;
      if |e| == 2 {
        assert (e + rest)[2..] == rest;
      } else {
        assert (e + rest)[1..] == rest;
      }
      UnescapeEscapeEach(s[1..]);
    }
  }

  /** A string of at most 100 characters is printed quoted and escaped so that
      reading back the text between the quotes gives the string again. */
  lemma ShortStringRoundTrip(s: string)
    requires |s| <= MaxStringLength
    ensures var q := QuoteString(s);
      |q| >= 2 && q[0] == '"' && q[|q| - 1] == '"' && Unescape(q[1..|q| - 1]) == s
  {
    EscapeStringIsEscapeEach(s);
    UnescapeEscapeEach(s);
    var q := QuoteString(s);
    assert q[1..|q| - 1] == EscapeString(s);
  }

  // ---- key quoting ----

  /** The escape of one character of a quoted key. */
  function KeyEscapeChar(c: char): string
  {
    if c == '\\' then "\\\\" else if c == '"' then "\\\"" else [c]
  }

  function KeyEscapeEach(k: string): string
  {
    if k == [] then [] else KeyEscapeChar(k[0]) + KeyEscapeEach(k[1..])
  }

  lemma EscapeKeyAppend(a: string, b: string)
    ensures EscapeKey(a + b) == EscapeKey(a) + EscapeKey(b)
  {
    ReplaceCharAppend(a, b, '\\', "\\\\");
    ReplaceCharAppend(ReplaceChar(a, '\\', "\\\\"), ReplaceChar(b, '\\', "\\\\"), '"', "\\\"");
  }

  lemma EscapeKeyChar(c: char)
    ensures EscapeKey([c]) == KeyEscapeChar(c)
  {
    ReplaceCharOne(c, '\\', "\\\\");
    if c == '\\' {
      ReplaceCharAbsent("\\\\", '"', "\\\"");
    } else {
      ReplaceCharOne(c, '"', "\\\"");
    }
  }

  /** The two global replacements escape every character of the key on its
      own: the quote replacement never rewrites an inserted backslash. */
  lemma {:induction false} EscapeKeyIsEach(k: string)
    ensures EscapeKey(k) == KeyEscapeEach(k)
    decreases |k|
  {
    if k != [] {
      assert k == [k[0]] + k[1..];
      EscapeKeyAppend([k[0]], k[1..]);
      EscapeKeyChar(k[0]);
      EscapeKeyIsEach(k[1..]);
    } else {
      assert EscapeKey(k) == [];
    }
  }

  lemma {:induction false} UnescapeKeyEscapeEach(k: string)
    ensures Unescape(KeyEscapeEach(k)) == k
    decreases |k|
  {
    if k != [] {
      var e := KeyEscapeChar(k[0]);
      var rest := KeyEscapeEach(k[1..]);
      assert KeyEscapeEach(k) == e + rest;
      if |e| == 2 {
        assert (e + rest)[2..] == rest;
      } else {
        assert (e + rest)[1..] == rest;
      }
      UnescapeKeyEscapeEach(k[1..]);
    }
  }

  /** Quoting keeps every character other than a backslash or a double quote
      as it is, control characters included. */
  lemma {:induction false} KeyEscapeKeeps(k: string, i: nat)
    requires i < |k| && k[i] != '\\' && k[i] != '"'
    ensures k[i] in KeyEscapeEach(k)
    decreases |k|
  {
    if i > 0 {
      KeyEscapeKeeps(k[1..], i - 1);
    }
  }

  /** An identifier key is printed bare; any other key is printed between
      double quotes, and reading back the text between them gives the key. */
  lemma QuoteKeyRoundTrip(k: string)
    ensures IsIdentifier(k) ==> QuoteKey(k) == k
    ensures !IsIdentifier(k) ==> var q := QuoteKey(k);
      |q| >= 2 && q[0] == '"' && q[|q| - 1] == '"' && Unescape(q[1..|q| - 1]) == k
  {
    if !IsIdentifier(k) {
      EscapeKeyIsEach(k);
      UnescapeKeyEscapeEach(k);
      var q := QuoteKey(k);
      assert q[1..|q| - 1] == EscapeKey(k);
    }
  }

  /** A newline in a quoted key is printed raw, not as `\n`. */
  lemma QuotedKeyKeepsNewline(k: string, i: nat)
    requires i < |k| && k[i] == '\n'
    ensures '\n' in QuoteKey(k)
  {
    assert !IdentPart('\n');
    if i == 0 {
      assert !IsIdentifier(k);
    } else {
      NotAllIdentParts(k[1..], i - 1);
    }
    EscapeKeyIsEach(k);
    KeyEscapeKeeps(k, i);
    var q := QuoteKey(k);
    assert q == "\"" + KeyEscapeEach(k) + "\"";
  }

  lemma {:induction false} NotAllIdentParts(s: string, i: nat)
    requires i < |s| && !IdentPart(s[i])
    ensures !AllIdentParts(s)
    decreases |s|
  {
    if i > 0 {
      NotAllIdentParts(s[1..], i - 1);
    }
  }
}
