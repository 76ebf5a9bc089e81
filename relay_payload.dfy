/**
 * The form-encoded submission forwarded to the relay endpoint
 * (api/submit-form.js, lines 98-106), as the ordered key/value list that
 * `new URLSearchParams({...})` holds before it is serialised.
 */
module RelayPayload {
  import opened Wrappers
  import opened Fields

  /** ASCII lower-case letters, the only characters `ToUpper` changes. */
  predicate IsLower(c: char)
  {
    'a' <= c <= 'z'
  }

  function UpperChar(c: char): char
  {
    if IsLower(c) then (c as int - 32) as char else c
  }

  /** `String.prototype.toUpperCase`, restricted to ASCII letters. */
  function ToUpper(s: string): (u: string)
    ensures |u| == |s|
  {
    if s == [] then [] else [UpperChar(s[0])] + ToUpper(s[1..])
  }

  /** Each character is uppercased on its own: letters a-z become A-Z, all others are kept. */
  lemma {:induction false} ToUpperAt(s: string, i: int)
    requires 0 <= i < |s|
    ensures ToUpper(s)[i] == UpperChar(s[i])
    ensures IsLower(s[i]) ==> ToUpper(s)[i] as int == s[i] as int - 32
    ensures !IsLower(s[i]) ==> ToUpper(s)[i] == s[i]
  {
    if i > 0 {
      ToUpperAt(s[1..], i - 1);
    }
  }

  /** No lower-case letter survives uppercasing. */
  lemma ToUpperHasNoLower(s: string)
    ensures forall i :: 0 <= i < |s| ==> !IsLower(ToUpper(s)[i])
  {
    forall i | 0 <= i < |s| ensures !IsLower(ToUpper(s)[i]) {
      ToUpperAt(s, i);
    }
  }

  /** Uppercasing an uppercased code changes nothing. */
  lemma {:induction false} ToUpperIdempotent(s: string)
    ensures ToUpper(ToUpper(s)) == ToUpper(s)
  {
    if s != [] {
      ToUpperIdempotent(s[1..]);
      assert ToUpper(s)[1..] == ToUpper(s[1..]);
    }
  }

  /** One optional entry: `...(value && { key: value })` spreads nothing for a falsy value. */
  function OptionalEntry(key: string, value: Option<string>): seq<(string, string)>
  {
    if Present(value) then [(key, value.value)] else []
  }

  /** Lines 98-106: the payload in the order of the object literal. */
  function Payload(s: Submission): (p: seq<(string, string)>)
    ensures 4 <= |p| <= 7
    ensures p[0] == ("email", s.email)
    ensures p[1] == ("countrycode", ToUpper(s.countrycode))
    ensures p[|p| - 2] == ("dm_this", "1") && p[|p| - 1] == ("dm_format", "2")
  {
    [("email", s.email), ("countrycode", ToUpper(s.countrycode))]
    + OptionalEntry("firstname", s.firstname)
    + OptionalEntry("lastname", s.lastname)
    + OptionalEntry("postalcode", s.postalcode)
    + [("dm_this", "1"), ("dm_format", "2")]
  }

  /** The keys of a payload, in order. */
  function Keys(p: seq<(string, string)>): (ks: seq<string>)
    ensures |ks| == |p|
  {
    if p == [] then [] else [p[0].0] + Keys(p[1..])
  }

  /** The value of the first entry with key `k`, as `URLSearchParams.get` returns it. */
  function Lookup(p: seq<(string, string)>, k: string): Option<string>
  {
    if p == [] then None else if p[0].0 == k then Some(p[0].1) else Lookup(p[1..], k)
  }

  /** Every key a payload may carry. */
  const PayloadKeySet: set<string> :=
    {"email", "countrycode", "firstname", "lastname", "postalcode", "dm_this", "dm_format"}

  predicate Distinct(ks: seq<string>)
  {
    forall i, j :: 0 <= i < j < |ks| ==> ks[i] != ks[j]
  }

  lemma {:induction false} KeysAppend(p: seq<(string, string)>, q: seq<(string, string)>)
    ensures Keys(p + q) == Keys(p) + Keys(q)
  {
    if p == [] {
      assert p + q == q;
    } else {
      assert (p + q)[0] == p[0] && (p + q)[1..] == p[1..] + q;
      KeysAppend(p[1..], q);
    }
  }

  lemma {:induction false} LookupAppend(p: seq<(string, string)>, q: seq<(string, string)>, k: string)
    ensures Lookup(p + q, k) == if Lookup(p, k).Some? then Lookup(p, k) else Lookup(q, k)
  {
    if p == [] {
      assert p + q == q;
    } else {
      assert (p + q)[0] == p[0] && (p + q)[1..] == p[1..] + q;
      LookupAppend(p[1..], q, k);
    }
  }

  function OptionalKey(key: string, value: Option<string>): seq<string>
  {
    if Present(value) then [key] else []
  }

  lemma PairKeys(x: (string, string), y: (string, string))
    ensures Keys([x, y]) == [x.0, y.0]
  {
    assert [x, y][1..] == [y];
    assert [y][1..] == [];
  }

  lemma PairLookup(x: (string, string), y: (string, string), k: string)
    ensures Lookup([x, y], k) == if x.0 == k then Some(x.1) else if y.0 == k then Some(y.1) else None
  {
    assert [x, y][0] == x && [x, y][1..] == [y];
    assert [y][0] == y && [y][1..] == [];
    assert Lookup([y], k) == if y.0 == k then Some(y.1) else None;
  }

  lemma OptionalEntryKeys(key: string, value: Option<string>)
    ensures Keys(OptionalEntry(key, value)) == OptionalKey(key, value)
  {
    if Present(value) {
      assert [(key, value.value)][1..] == [];
    }
  }

  lemma OptionalEntryLookup(key: string, value: Option<string>, k: string)
    ensures Lookup(OptionalEntry(key, value), k) ==
              if k == key && Present(value) then value else None
  {
    if Present(value) {
      assert [(key, value.value)][1..] == [];
    }
  }

  /**
   * The first half of `PayloadKeys`, kept apart only to split its proof:
   * the keys of the payload as the parts the object literal spreads.
   */
  lemma PayloadKeysParts(s: Submission)
    ensures Keys(Payload(s)) ==
      ["email", "countrycode"]
      + OptionalKey("firstname", s.firstname)
      + OptionalKey("lastname", s.lastname)
      + OptionalKey("postalcode", s.postalcode)
      + ["dm_this", "dm_format"]
  {
    var a := [("email", s.email), ("countrycode", ToUpper(s.countrycode))];
    var f := OptionalEntry("firstname", s.firstname);
    var l := OptionalEntry("lastname", s.lastname);
    var z := OptionalEntry("postalcode", s.postalcode);
    var d := [("dm_this", "1"), ("dm_format", "2")];
    KeysAppend(a, f);
    KeysAppend(a + f, l);
    KeysAppend(a + f + l, z);
    KeysAppend(a + f + l + z, d);
    PairKeys(a[0], a[1]);
    PairKeys(d[0], d[1]);
    OptionalEntryKeys("firstname", s.firstname);
    OptionalEntryKeys("lastname", s.lastname);
    OptionalEntryKeys("postalcode", s.postalcode);
  }

  /** Elements of two duplicate-free lists with nothing in common form a duplicate-free list. */
  lemma DistinctAppend(a: seq<string>, b: seq<string>)
    requires Distinct(a) && Distinct(b)
    requires forall x :: x in a ==> x !in b
    ensures Distinct(a + b)
  {
    forall i, j | 0 <= i < j < |a + b| ensures (a + b)[i] != (a + b)[j] {
      if j < |a| {
        assert (a + b)[i] == a[i] && (a + b)[j] == a[j];
      } else if i < |a| {
        assert (a + b)[i] == a[i] && (a + b)[j] == b[j - |a|];
        assert b[j - |a|] in b;
      } else {
        assert (a + b)[i] == b[i - |a|] && (a + b)[j] == b[j - |a|];
      }
    }
  }

  /**
   * The payload's keys are, in order, email, countrycode, the optional
   * fields that are truthy, then the two double-opt-in flags; none repeats.
   */
  lemma PayloadKeys(s: Submission)
    ensures Keys(Payload(s)) ==
      ["email", "countrycode"]
      + OptionalKey("firstname", s.firstname)
      + OptionalKey("lastname", s.lastname)
      + OptionalKey("postalcode", s.postalcode)
      + ["dm_this", "dm_format"]
    ensures Distinct(Keys(Payload(s)))
  {
    PayloadKeysParts(s);
    var a: seq<string> := ["email", "countrycode"];
    var f := OptionalKey("firstname", s.firstname);
    var l := OptionalKey("lastname", s.lastname);
    var z := OptionalKey("postalcode", s.postalcode);
    var d: seq<string> := ["dm_this", "dm_format"];
    assert forall x :: x in a + f ==> x in {"email", "countrycode", "firstname"};
    DistinctAppend(a, f);
    assert forall x :: x in a + f + l ==> x in {"email", "countrycode", "firstname", "lastname"};
    DistinctAppend(a + f, l);
    assert forall x :: x in a + f + l + z ==>
      x in {"email", "countrycode", "firstname", "lastname", "postalcode"};
    DistinctAppend(a + f + l, z);
    DistinctAppend(a + f + l + z, d);
  }

  /** The value the payload carries under any key. */
  lemma PayloadLookupAt(s: Submission, key: string)
    ensures Lookup(Payload(s), key) ==
      if key == "email" then Some(s.email)
      else if key == "countrycode" then Some(ToUpper(s.countrycode))
      else if key == "firstname" && Present(s.firstname) then s.firstname
      else if key == "lastname" && Present(s.lastname) then s.lastname
      else if key == "postalcode" && Present(s.postalcode) then s.postalcode
      else if key == "dm_this" then Some("1")
      else if key == "dm_format" then Some("2")
      else None
  {
    var a := [("email", s.email), ("countrycode", ToUpper(s.countrycode))];
    var f := OptionalEntry("firstname", s.firstname);
    var l := OptionalEntry("lastname", s.lastname);
    var z := OptionalEntry("postalcode", s.postalcode);
    var d := [("dm_this", "1"), ("dm_format", "2")];
    LookupAppend(a + f + l + z, d, key);
    LookupAppend(a + f + l, z, key);
    LookupAppend(a + f, l, key);
    LookupAppend(a, f, key);
    PairLookup(a[0], a[1], key);
    PairLookup(d[0], d[1], key);
    OptionalEntryLookup("firstname", s.firstname, key);
    OptionalEntryLookup("lastname", s.lastname, key);
    OptionalEntryLookup("postalcode", s.postalcode, key);
  }

  /**
   * What the relay reads from each key: the email unchanged, the country code
   * uppercased, each optional field exactly when it is truthy, the constant
   * flags, and nothing for any other key.
   */
  lemma PayloadLookup(s: Submission, k: string)
    ensures Lookup(Payload(s), "email") == Some(s.email)
    ensures Lookup(Payload(s), "countrycode") == Some(ToUpper(s.countrycode))
    ensures Lookup(Payload(s), "firstname").Some? <==> Present(s.firstname)
    ensures Lookup(Payload(s), "firstname").Some? ==> Lookup(Payload(s), "firstname") == s.firstname
    ensures Lookup(Payload(s), "lastname").Some? <==> Present(s.lastname)
    ensures Lookup(Payload(s), "lastname").Some? ==> Lookup(Payload(s), "lastname") == s.lastname
    ensures Lookup(Payload(s), "postalcode").Some? <==> Present(s.postalcode)
    ensures Lookup(Payload(s), "postalcode").Some? ==> Lookup(Payload(s), "postalcode") == s.postalcode
    ensures Lookup(Payload(s), "dm_this") == Some("1")
    ensures Lookup(Payload(s), "dm_format") == Some("2")
    ensures k !in PayloadKeySet ==> Lookup(Payload(s), k) == None
  {
    PayloadLookupAt(s, "email");
    PayloadLookupAt(s, "countrycode");
    PayloadLookupAt(s, "firstname");
    PayloadLookupAt(s, "lastname");
    PayloadLookupAt(s, "postalcode");
    PayloadLookupAt(s, "dm_this");
    PayloadLookupAt(s, "dm_format");
    PayloadLookupAt(s, k);
  }
}
