/**
 * Selector extraction from a contract ABI (`getFunctionSelectors`, written out
 * identically in the Ignition module and in both maintenance scripts).
 *
 * The ABI is kept only as far as the extraction looks at it: each entry's
 * `type` string, its `name`, and the `type` strings of its `inputs`. The
 * Keccak-256 selector computation (`toFunctionSelector`) is a parameter `h`,
 * a function from signature text to four bytes that never fails.
 */
module Abi {
  import opened Wrappers

  /** A function selector: four bytes. */
  type Selector = s: seq<bv8> | |s| == 4 witness [0, 0, 0, 0]

  /** `toFunctionSelector`: signature text to the leading four bytes of its hash. */
  type SelectorHash = string -> Selector

  /** One element of an entry's `inputs`; only its ABI `type` string is read. */
  datatype Param = Param(typ: string)

  /**
   * One ABI entry. `kind` is the entry's `type` field ("function", "event",
   * "error", "constructor", ...). `inputs` is None when the entry carries no
   * `inputs` array, in which case mapping over its inputs throws.
   */
  datatype AbiEntry = AbiEntry(kind: string, name: string, inputs: Option<seq<Param>>)

  predicate IsFunction(e: AbiEntry) {
    e.kind == "function"
  }

  /** Every function entry has an `inputs` array, so extraction does not throw. */
  predicate Extractable(abi: seq<AbiEntry>) {
    forall e :: e in abi && IsFunction(e) ==> e.inputs.Some?
  }

  // ---------------------------------------------------------------------------
  // Signature text

  /**
   * The parts glued with a single ',' between neighbours, as array `join`
   * does: the text begins with the first part, a ',' follows it when more
   * parts come, and no parts give the empty text. Split inverts it.
   */
  function Join(parts: seq<string>): (r: string)
    ensures |parts| == 0 ==> r == ""
    ensures |parts| > 0 ==> |r| >= |parts[0]| && r[..|parts[0]|] == parts[0]
    ensures |parts| > 1 ==> |r| > |parts[0]| && r[|parts[0]|] == ','
  {
    if |parts| == 0 then ""
    else if |parts| == 1 then parts[0]
    else parts[0] + "," + Join(parts[1..])
  }

  /** The `type` strings of the inputs, one per input, in order, verbatim (a struct is just "tuple"). */
  function TypeStrings(params: seq<Param>): (r: seq<string>)
    ensures |r| == |params|
    ensures forall i :: 0 <= i < |params| ==> r[i] == params[i].typ
  {
    seq(|params|, i requires 0 <= i < |params| => params[i].typ)
  }

  /**
   * The text signature `name(t1,t2,...)` with no spaces: the name, an opening
   * parenthesis, the types, a closing parenthesis; `name()` for no inputs.
   * ParseSignature reads it back.
   */
  function Signature(name: string, types: seq<string>): (r: string)
    ensures |r| >= |name| + 2 && r[..|name|] == name && r[|name|] == '(' && r[|r| - 1] == ')'
    ensures types == [] ==> r == name + "()"
    ensures |types| == 1 ==> r == name + "(" + types[0] + ")"
  {
    name + "(" + Join(types) + ")"
  }

  function EntrySignature(e: AbiEntry): string
    requires e.inputs.Some?
  {
    Signature(e.name, TypeStrings(e.inputs.value))
  }

  /** Splitting at every ',' (as `String.prototype.split(",")`): the inverse of Join. */
  function Split(s: string): (r: seq<string>)
    ensures |r| > 0
  {
    if s == [] then [[]]
    else
      var rest := Split(s[1..]);
      if s[0] == ',' then [[]] + rest else [[s[0]] + rest[0]] + rest[1..]
  }

  /** The position of the first occurrence of `c` in `s`. */
  function IndexOf(s: string, c: char): (r: Option<nat>)
    ensures r.Some? ==> r.value < |s| && s[r.value] == c && c !in s[..r.value]
    ensures r.None? ==> c !in s
  {
    if s == [] then None
    else if s[0] == c then Some(0)
    else
      match IndexOf(s[1..], c)
      case None => None
      case Some(i) =>
        assert s[..i + 1] == [s[0]] + s[1..][..i];
        Some(i + 1)
  }

  /**
   * Reads a signature back into its name and type list: the name is the text
   * before the first '(', the types are the text between it and the final ')'
   * split at ','. Whatever it reads, Signature rebuilds the same text.
   */
  function ParseSignature(s: string): (r: Option<(string, seq<string>)>)
    ensures r.Some? ==> Signature(r.value.0, r.value.1) == s
    ensures r.Some? ==> '(' !in r.value.0
  {
    if |s| < 2 || s[|s| - 1] != ')' then None
    else
      match IndexOf(s, '(')
      case None => None
      case Some(i) =>
        var inner := s[i + 1 .. |s| - 1];
        var types := if inner == [] then [] else Split(inner);
        JoinSplit(inner);
        assert s == s[..i] + "(" + inner + ")";
        Some((s[..i], types))
  }

  lemma {:induction false} JoinSplit(s: string)
    ensures Join(Split(s)) == s
  {
    if s != [] {
      var rest := Split(s[1..]);
      JoinSplit(s[1..]);
      if s[0] == ',' {
        assert Split(s) == [[]] + rest;
        assert ([[]] + rest)[1..] == rest;
      } else {
        var r := [[s[0]] + rest[0]] + rest[1..];
        assert Split(s) == r;
        if |rest| == 1 {
          assert Join(r) == [s[0]] + rest[0];
        } else {
          assert r[1..] == rest[1..];
          assert Join(r) == [s[0]] + rest[0] + "," + Join(rest[1..]);
        }
      }
    }
  }

  lemma {:induction false} SplitNoComma(t: string)
    requires ',' !in t
    ensures Split(t) == [t]
  {
    if t != [] {
      SplitNoComma(t[1..]);
      assert [t[0]] + t[1..] == t;
    }
  }

  lemma {:induction false} SplitAtComma(t: string, x: string)
    requires ',' !in t
    ensures Split(t + "," + x) == [t] + Split(x)
  {
    var s := t + "," + x;
    if t == [] {
      assert s[1..] == x;
    } else {
      assert s[1..] == t[1..] + "," + x;
      SplitAtComma(t[1..], x);
      assert [t[0]] + t[1..] == t;
    }
  }

  lemma {:induction false} SplitJoin(ts: seq<string>)
    requires |ts| > 0
    requires forall k :: 0 <= k < |ts| ==> ',' !in ts[k]
    ensures Split(Join(ts)) == ts
  {
    if |ts| == 1 {
      SplitNoComma(ts[0]);
    } else {
      SplitJoin(ts[1..]);
      SplitAtComma(ts[0], Join(ts[1..]));
      assert [ts[0]] + ts[1..] == ts;
    }
  }

  lemma {:induction false} IndexOfAfterPrefix(n: string, rest: string, c: char)
    requires c !in n
    ensures IndexOf(n + [c] + rest, c) == Some(|n|)
  {
    if n != [] {
      assert (n + [c] + rest)[1..] == n[1..] + [c] + rest;
      IndexOfAfterPrefix(n[1..], rest, c);
    }
  }

  /**
   * Signature is injective on well-formed input: a name without '(' and
   * parameter types that are non-empty and contain no ','. (Without the last
   * condition `f()` would be the signature both of no inputs and of one input
   * whose type is the empty string.)
   */
  lemma SignatureRoundTrip(name: string, types: seq<string>)
    requires '(' !in name
    requires forall k :: 0 <= k < |types| ==> types[k] != "" && ',' !in types[k]
    ensures ParseSignature(Signature(name, types)) == Some((name, types))
  {
    var s := Signature(name, types);
    var j := Join(types);
    IndexOfAfterPrefix(name, j + ")", '(');
    assert s == name + ['('] + (j + ")");
    assert s[..|name|] == name;
    assert s[|name| + 1 .. |s| - 1] == j;
    if types != [] {
      SplitJoin(types);
      assert j != [] by {
        if |types| > 1 { assert j == types[0] + "," + Join(types[1..]); }
      }
    }
  }

  /** Different names or type lists give different signatures (given well-formedness). */
  lemma SignatureInjective(n1: string, ts1: seq<string>, n2: string, ts2: seq<string>)
    requires '(' !in n1 && '(' !in n2
    requires forall k :: 0 <= k < |ts1| ==> ts1[k] != "" && ',' !in ts1[k]
    requires forall k :: 0 <= k < |ts2| ==> ts2[k] != "" && ',' !in ts2[k]
    ensures Signature(n1, ts1) == Signature(n2, ts2) <==> n1 == n2 && ts1 == ts2
  {
    SignatureRoundTrip(n1, ts1);
    SignatureRoundTrip(n2, ts2);
  }

  /**
   * When the hash does not collide on the two signatures involved, changing
   * the name or any parameter type changes the selector; with any hash, equal
   * descriptions give equal selectors. (No four-byte hash is collision-free on
   * all strings, so only these two signatures are assumed apart.)
   */
  lemma SelectorDistinguishes(h: SelectorHash, n1: string, ts1: seq<string>, n2: string, ts2: seq<string>)
    requires h(Signature(n1, ts1)) == h(Signature(n2, ts2)) ==> Signature(n1, ts1) == Signature(n2, ts2)
    requires '(' !in n1 && '(' !in n2
    requires forall k :: 0 <= k < |ts1| ==> ts1[k] != "" && ',' !in ts1[k]
    requires forall k :: 0 <= k < |ts2| ==> ts2[k] != "" && ',' !in ts2[k]
    ensures h(Signature(n1, ts1)) == h(Signature(n2, ts2)) <==> n1 == n2 && ts1 == ts2
  {
    SignatureInjective(n1, ts1, n2, ts2);
  }

  // ---------------------------------------------------------------------------
  // getFunctionSelectors: keep the function entries, then hash each one's signature

  /** The ABI's function entries, in order, duplicates kept. */
  function FunctionItems(abi: seq<AbiEntry>): (r: seq<AbiEntry>)
    ensures forall e :: e in r <==> e in abi && IsFunction(e)
    ensures |r| <= |abi|
  {
    if abi == [] then []
    else
      (if IsFunction(abi[0]) then [abi[0]] else []) + FunctionItems(abi[1..])
  }

  /** Hashes each function entry's signature, in order; None at the first entry without `inputs`. */
  function SelectorsOf(funcs: seq<AbiEntry>, h: SelectorHash): (r: Option<seq<Selector>>)
    ensures r.Some? <==> forall k :: 0 <= k < |funcs| ==> funcs[k].inputs.Some?
    ensures r.Some? ==> |r.value| == |funcs|
    ensures r.Some? ==> forall k :: 0 <= k < |funcs| ==> r.value[k] == h(EntrySignature(funcs[k]))
  {
    if funcs == [] then Some([])
    else
      match funcs[0].inputs
      case None => None
      case Some(params) =>
        var rest :- SelectorsOf(funcs[1..], h);
        Some([h(Signature(funcs[0].name, TypeStrings(params)))] + rest)
  }

  /**
   * `getFunctionSelectors(abi)`: one selector per function entry, in ABI order,
   * duplicates kept; None when some function entry has no `inputs`.
   */
  function FunctionSelectors(abi: seq<AbiEntry>, h: SelectorHash): (r: Option<seq<Selector>>)
    ensures r.Some? <==> Extractable(abi)
    ensures r.Some? ==> |r.value| == |FunctionItems(abi)|
    ensures r.Some? ==> forall k :: 0 <= k < |r.value| ==>
      IsFunction(FunctionItems(abi)[k]) && r.value[k] == h(EntrySignature(FunctionItems(abi)[k]))
  {
    var funcs := FunctionItems(abi);
    assert forall k :: 0 <= k < |funcs| ==> funcs[k] in funcs;
    SelectorsOf(funcs, h)
  }

  /** Filtering keeps every occurrence of every function entry: nothing is deduplicated. */
  lemma {:induction false} FunctionItemsCounts(abi: seq<AbiEntry>, e: AbiEntry)
    ensures multiset(FunctionItems(abi))[e] == if IsFunction(e) then multiset(abi)[e] else 0
  {
    if abi != [] {
      FunctionItemsCounts(abi[1..], e);
      assert abi == [abi[0]] + abi[1..];
    }
  }

  lemma {:induction false} FunctionItemsAppend(a: seq<AbiEntry>, b: seq<AbiEntry>)
    ensures FunctionItems(a + b) == FunctionItems(a) + FunctionItems(b)
  {
    if a != [] {
      var head := if IsFunction(a[0]) then [a[0]] else [];
      assert (a + b)[0] == a[0];
      assert (a + b)[1..] == a[1..] + b;
      FunctionItemsAppend(a[1..], b);
      calc {
        FunctionItems(a + b);
        head + FunctionItems(a[1..] + b);
        head + (FunctionItems(a[1..]) + FunctionItems(b));
        (head + FunctionItems(a[1..])) + FunctionItems(b);
        FunctionItems(a) + FunctionItems(b);
      }
    } else {
      assert a + b == b;
    }
  }

  lemma NonFunctionItemIgnored(a: seq<AbiEntry>, e: AbiEntry, b: seq<AbiEntry>)
    requires !IsFunction(e)
    ensures FunctionItems(a + [e] + b) == FunctionItems(a + b)
  {
    FunctionItemsAppend(a + [e], b);
    FunctionItemsAppend(a, [e]);
    FunctionItemsAppend(a, b);
    assert [e][1..] == [];
    assert FunctionItems([e]) == [];
  }

  /** Events, errors, the constructor and any other non-function entry contribute nothing. */
  lemma NonFunctionEntryIgnored(a: seq<AbiEntry>, e: AbiEntry, b: seq<AbiEntry>, h: SelectorHash)
    requires !IsFunction(e)
    ensures FunctionSelectors(a + [e] + b, h) == FunctionSelectors(a + b, h)
  {
    NonFunctionItemIgnored(a, e, b);
  }

  /** An ABI without function entries yields no selectors (not an error). */
  lemma NoFunctionsNoSelectors(abi: seq<AbiEntry>, h: SelectorHash)
    requires forall k :: 0 <= k < |abi| ==> !IsFunction(abi[k])
    ensures FunctionSelectors(abi, h) == Some([])
  {
  }

  /** A one-entry ABI holding a function yields exactly that function's selector. */
  lemma SingleFunctionSelector(e: AbiEntry, h: SelectorHash)
    requires IsFunction(e) && e.inputs.Some?
    ensures FunctionSelectors([e], h) == Some([h(EntrySignature(e))])
  {
    assert [e][1..] == [];
    assert FunctionItems([e]) == [e];
    var r := FunctionSelectors([e], h);
    assert r.Some? && |r.value| == 1 && r.value[0] == h(EntrySignature(e));
    assert r.value == [h(EntrySignature(e))];
  }

  /**
   * The signature text of an example entry shaped like `diamondCut`, built
   * from its verbatim input types. The example is only an input here: the
   * scripts hand their own `diamondCut` entry to the contract encoder, which
   * uses the entry's components, not to the selector extraction.
   */
  lemma DiamondCutSignatureText()
    ensures EntrySignature(AbiEntry("function", "diamondCut",
                             Some([Param("tuple[]"), Param("address"), Param("bytes")])))
            == "diamondCut(tuple[],address,bytes)"
  {
    var types := TypeStrings([Param("tuple[]"), Param("address"), Param("bytes")]);
    assert types == ["tuple[]", "address", "bytes"];
    assert types[2..] == ["bytes"];
    assert Join(types[2..]) == "bytes";
    assert Join(types[1..]) == "address" + "," + "bytes";
    assert Join(types) == "tuple[]" + "," + "address,bytes";
  }

  /**
   * A struct parameter contributes its ABI `type` string verbatim, not its
   * component types: an example entry shaped like `diamondCut` hashes
   * `diamondCut(tuple[],address,bytes)`, not the canonical signature. The
   * scripts never run their own `diamondCut` entry through this extraction.
   */
  lemma TupleTypeUsedVerbatim(h: SelectorHash)
    ensures FunctionSelectors([AbiEntry("function", "diamondCut",
                                Some([Param("tuple[]"), Param("address"), Param("bytes")]))], h)
            == Some([h("diamondCut(tuple[],address,bytes)")])
  {
    var e := AbiEntry("function", "diamondCut", Some([Param("tuple[]"), Param("address"), Param("bytes")]));
    DiamondCutSignatureText();
    SingleFunctionSelector(e, h);
  }
}
