/**
 * The JSON text the bridge writes. Both services build their response bodies by string concatenation,
 * inserting port names, paths and messages raw (no escaping); `Object` and `Array` reproduce exactly that
 * concatenation, so a field list here denotes the literal text the source emits, not necessarily valid JSON.
 */
module Json {
  import opened Wrappers
  import opened Text

  /** A field value as the source writes it: a bare `true`/`false`, a quoted string, a decimal count, or text spliced in as is. */
  datatype Value = Bool(b: bool) | Str(s: string) | Num(n: nat) | Raw(text: string)

  datatype Field = Field(key: string, value: Value)

  function Quote(s: string): (r: string)
    ensures |r| == |s| + 2 && r[0] == '"' && r[|r| - 1] == '"' && r[1..|r| - 1] == s
  {
    "\"" + s + "\""
  }

  function RenderValue(v: Value): string {
    match v
    case Bool(b) => if b then "true" else "false"
    case Str(s) => Quote(s)
    case Num(n) => NatToDecimal(n)
    case Raw(t) => t
  }

  /** `"key":value`, with no whitespace, as every body of the bridge writes its members. */
  function RenderField(f: Field): string {
    Quote(f.key) + ":" + RenderValue(f.value)
  }

  function Members(fs: seq<Field>): (ms: seq<string>)
    ensures |ms| == |fs| && forall i :: 0 <= i < |fs| ==> ms[i] == RenderField(fs[i])
  {
    seq(|fs|, i requires 0 <= i < |fs| => RenderField(fs[i]))
  }

  /** The members of an object between its braces. */
  function Inner(fs: seq<Field>): string {
    Joined(Members(fs), ",")
  }

  function Object(fs: seq<Field>): string {
    "{" + Inner(fs) + "}"
  }

  function Array(items: seq<string>): string {
    "[" + Joined(items, ",") + "]"
  }

  /** Each element quoted, as `"\"" + port + "\""` is pushed for every port name. */
  function Quoted(xs: seq<string>): (qs: seq<string>)
    ensures |qs| == |xs| && forall i :: 0 <= i < |xs| ==> qs[i] == Quote(xs[i])
  {
    seq(|xs|, i requires 0 <= i < |xs| => Quote(xs[i]))
  }

  /** The value of the first field named `key`, if any. */
  function Lookup(fs: seq<Field>, key: string): (r: Option<Value>)
    ensures r.Some? <==> exists i :: 0 <= i < |fs| && fs[i].key == key
    ensures r.Some? ==> exists i :: 0 <= i < |fs| && fs[i] == Field(key, r.value)
  {
    if |fs| == 0 then None
    else if fs[0].key == key then Some(fs[0].value)
    else
      var r := Lookup(fs[1..], key);
      assert forall i :: 0 <= i < |fs| - 1 ==> fs[1..][i] == fs[i + 1];
      r
  }

  // ---------------------------------------------------------------------------------------------
  // Laws of the rendering

  lemma MembersAppend(a: seq<Field>, b: seq<Field>)
    ensures Members(a + b) == Members(a) + Members(b)
  {
  }

  /** An object with no members is `{}`, the text the local manager returns when it has no client. */
  lemma EmptyObject()
    ensures Object([]) == "{}"
  {
  }

  /** Stripping the first and last character of an object leaves exactly its members. */
  lemma StripBraces(fs: seq<Field>)
    ensures var o := Object(fs); |o| >= 2 && o[1..|o| - 1] == Inner(fs)
  {
  }

  /** The members of two non-empty field lists, joined by one comma, are the members of their concatenation. */
  lemma InnerAppend(a: seq<Field>, b: seq<Field>)
    requires |a| > 0 && |b| > 0
    ensures Inner(a + b) == Inner(a) + "," + Inner(b)
  {
    MembersAppend(a, b);
    JoinedAppend(Members(a), Members(b), ",");
  }

  /**
   * Splicing the members of one object between those of two others, with a comma at each seam, yields the
   * object of all the fields in order.
   */
  lemma Splice(a: seq<Field>, b: seq<Field>, c: seq<Field>)
    requires |a| > 0 && |b| > 0 && |c| > 0
    ensures "{" + Inner(a) + "," + Inner(b) + "," + Inner(c) + "}" == Object(a + b + c)
  {
    InnerAppend(a, b);
    InnerAppend(a + b, c);
    Regroup(Inner(a), Inner(b), Inner(c));
  }

  /** Regrouping a comma-separated body between braces. */
  lemma Regroup(x: string, y: string, z: string)
    ensures "{" + x + "," + y + "," + z + "}" == "{" + (x + "," + y + "," + z) + "}"
  {
  }

  lemma {:induction false} LookupAppend(a: seq<Field>, b: seq<Field>, key: string)
    requires forall i :: 0 <= i < |a| ==> a[i].key != key
    ensures Lookup(a + b, key) == Lookup(b, key)
    decreases |a|
  {
    if |a| == 0 {
      assert a + b == b;
    } else {
      assert (a + b)[1..] == a[1..] + b;
      LookupAppend(a[1..], b, key);
    }
  }

  /** The separator a `for` loop has written after its first `i` of `n` elements: a comma unless at either end. */
  function Pending(i: nat, n: nat): string {
    if 0 < i < n then "," else ""
  }

  /**
   * One turn of the loops that build an array by appending an element and then, unless it was the last, a
   * comma: the text stays the array of the elements so far, open at the end.
   */
  lemma ArrayLoopStep(items: seq<string>, i: nat)
    requires i < |items|
    ensures "[" + Joined(items[..i], ",") + Pending(i, |items|) + items[i] + (if i < |items| - 1 then "," else "") ==
      "[" + Joined(items[..i + 1], ",") + Pending(i + 1, |items|)
  {
    var x, y := Joined(items[..i], ","), items[i];
    var t := if i < |items| - 1 then "," else "";
    assert Pending(i + 1, |items|) == t;
    assert items[..i + 1] == items[..i] + [y];
    if i == 0 {
      assert Joined(items[..1], ",") == y;
      Cat4("[", "", "", y, t);
    } else {
      JoinedSnoc(items[..i], y, ",");
      Cat4("[", x, ",", y, t);
    }
  }

  lemma Cat4(a: string, b: string, c: string, d: string, e: string)
    ensures a + b + c + d + e == a + (b + c + d) + e
  {
  }

  /** When the loop has passed every element, closing the bracket gives the array. */
  lemma ArrayLoopEnd(items: seq<string>)
    ensures "[" + Joined(items[..|items|], ",") + Pending(|items|, |items|) + "]" == Array(items)
  {
    assert items[..|items|] == items;
  }
}
