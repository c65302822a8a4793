/**
 * URLs as the section hydrator sees them: a head (scheme, authority and path as
 * written), a query held as the name-value list of a URLSearchParams object, and
 * an optional fragment.
 *
 * The list operations follow URLSearchParams `set()` and `delete()` (section 6.2
 * of the WHATWG URL Standard); the query text is read and written by the
 * application/x-www-form-urlencoded parser and serializer (sections 5.1 and 5.2
 * of the same standard) without percent-encoding.
 */
module Urls {
  import opened Wrappers

  /** The name-value list of a URLSearchParams object, in order. */
  type Query = seq<(string, string)>

  datatype Url = Url(head: string, query: Query, fragment: Option<string>)

  /** The position of the first `c` in `s`, if any. */
  function IndexOf(s: string, c: char): (r: Option<nat>)
    ensures r.Some? ==> r.value < |s| && s[r.value] == c
    ensures r.Some? ==> forall k :: 0 <= k < r.value ==> s[k] != c
    ensures r.None? <==> c !in s
  {
    if s == [] then None
    else if s[0] == c then Some(0)
    else
      match IndexOf(s[1..], c)
      case None => None
      case Some(i) => Some(i + 1)
  }

  lemma IndexOfJoin(a: string, c: char, b: string)
    requires c !in a
    ensures IndexOf(a + [c] + b, c) == Some(|a|)
  {
    var s := a + [c] + b;
    assert s[|a|] == c;
    assert forall k :: 0 <= k < |a| ==> s[k] == a[k];
  }

  /** Splits `s` at the first `c`: the text before it and, when `c` occurs, the text after it. */
  function Split(s: string, c: char): (r: (string, Option<string>))
    ensures c !in r.0 && r.0 <= s
    ensures r.1.None? <==> c !in s
    ensures r.1.Some? ==> s == r.0 + [c] + r.1.value
  {
    match IndexOf(s, c)
    case None => (s, None)
    case Some(i) =>
      assert s == s[..i] + [c] + s[i + 1..];
      (s[..i], Some(s[i + 1..]))
  }

  lemma SplitJoin(a: string, c: char, b: string)
    requires c !in a
    ensures Split(a + [c] + b, c) == (a, Some(b))
  {
    IndexOfJoin(a, c, b);
    var s := a + [c] + b;
    assert s[..|a|] == a;
    assert s[|a| + 1..] == b;
  }

  /** How many pairs of `q` are named `name`. */
  function CountName(q: Query, name: string): nat
  {
    if q == [] then 0
    else (if q[0].0 == name then 1 else 0) + CountName(q[1..], name)
  }

  lemma {:induction false} CountNameZero(q: Query, name: string)
    ensures CountName(q, name) == 0 <==> forall p :: p in q ==> p.0 != name
  {
    if q != [] {
      CountNameZero(q[1..], name);
      assert forall p :: p in q <==> p == q[0] || p in q[1..];
    }
  }

  /**
   * URLSearchParams `delete(name)`: removes every pair named `name` and keeps the
   * others in their order.
   */
  function DeleteParam(q: Query, name: string): (r: Query)
    ensures CountName(r, name) == 0
    ensures |r| == |q| - CountName(q, name)
    ensures forall p :: p in r ==> p in q && p.0 != name
    ensures forall p :: p in q && p.0 != name ==> p in r
  {
    if q == [] then []
    else if q[0].0 == name then DeleteParam(q[1..], name)
    else [q[0]] + DeleteParam(q[1..], name)
  }

  /** Deleting works pair by pair in order: deleting from a concatenation concatenates the results. */
  lemma {:induction false} DeleteParamAppend(a: Query, b: Query, name: string)
    ensures DeleteParam(a + b, name) == DeleteParam(a, name) + DeleteParam(b, name)
  {
    if a == [] {
      assert a + b == b;
    } else {
      assert (a + b)[0] == a[0] && (a + b)[1..] == a[1..] + b;
      DeleteParamAppend(a[1..], b, name);
    }
  }

  /** A list without the name is kept whole and in order, wherever it stands in the list. */
  lemma DeleteParamKeepsOthers(a: Query, b: Query, c: Query, name: string)
    requires CountName(b, name) == 0
    ensures DeleteParam(a + b + c, name) == DeleteParam(a, name) + b + DeleteParam(c, name)
  {
    DeleteParamAppend(a + b, c, name);
    DeleteParamAppend(a, b, name);
    DeleteParamUnchanged(b, name);
  }

  /** Deleting a name changes the list exactly when the list holds a pair of that name. */
  lemma {:induction false} DeleteParamUnchanged(q: Query, name: string)
    ensures DeleteParam(q, name) == q <==> CountName(q, name) == 0
  {
    if q != [] {
      DeleteParamUnchanged(q[1..], name);
    }
  }

  /**
   * URLSearchParams `set(name, value)`: the first pair named `name` takes `value`
   * and the later ones are removed; with no such pair, one is appended.
   */
  function SetParam(q: Query, name: string, value: string): (r: Query)
    ensures CountName(r, name) == 1
    ensures |r| == |q| - CountName(q, name) + 1
  {
    if q == [] then [(name, value)]
    else if q[0].0 == name then [(name, value)] + DeleteParam(q[1..], name)
    else [q[0]] + SetParam(q[1..], name, value)
  }

  /** After `set`, exactly one pair carries the name, and it carries the new value. */
  lemma {:induction false} SetParamNamed(q: Query, name: string, value: string)
    ensures CountName(SetParam(q, name, value), name) == 1
    ensures forall p :: p in SetParam(q, name, value) && p.0 == name ==> p.1 == value
  {
    if q != [] {
      if q[0].0 != name {
        SetParamNamed(q[1..], name, value);
      }
    }
  }

  /** `set` keeps the other pairs in their order, and appends a name that was absent. */
  lemma SetParamOthers(q: Query, name: string, value: string)
    ensures DeleteParam(SetParam(q, name, value), name) == DeleteParam(q, name)
    ensures CountName(q, name) == 0 ==> SetParam(q, name, value) == q + [(name, value)]
  {
    SetParamDelete(q, name, value);
    if CountName(q, name) == 0 {
      SetParamAppends(q, name, value);
    }
  }

  lemma {:induction false} SetParamDelete(q: Query, name: string, value: string)
    ensures DeleteParam(SetParam(q, name, value), name) == DeleteParam(q, name)
  {
    if q == [] {
    } else if q[0].0 == name {
      var rest := DeleteParam(q[1..], name);
      DeleteParamUnchanged(rest, name);
      assert SetParam(q, name, value) == [(name, value)] + rest;
    } else {
      SetParamDelete(q[1..], name, value);
      assert SetParam(q, name, value) == [q[0]] + SetParam(q[1..], name, value);
    }
  }

  lemma {:induction false} SetParamAppends(q: Query, name: string, value: string)
    requires CountName(q, name) == 0
    ensures SetParam(q, name, value) == q + [(name, value)]
  {
    if q != [] {
      SetParamAppends(q[1..], name, value);
      assert q == [q[0]] + q[1..];
    }
  }

  /** When `name` is present, `set` rewrites it in the place of its first occurrence. */
  lemma {:induction false} SetParamInPlace(q: Query, name: string, value: string, k: nat)
    requires k < |q| && q[k].0 == name
    requires forall j :: 0 <= j < k ==> q[j].0 != name
    ensures var r := SetParam(q, name, value);
            k < |r| && r[k] == (name, value) && forall j :: 0 <= j < k ==> r[j] == q[j]
  {
    if k > 0 {
      var t := q[1..];
      assert forall j :: 0 <= j < k - 1 ==> t[j] == q[j + 1];
      SetParamInPlace(t, name, value, k - 1);
      var rest := SetParam(t, name, value);
      assert SetParam(q, name, value) == [q[0]] + rest;
    }
  }

  /** Deleting is idempotent, and deleting after a `set` of the same name is deleting alone. */
  lemma DeleteAfterSet(q: Query, name: string, value: string)
    ensures DeleteParam(DeleteParam(q, name), name) == DeleteParam(q, name)
    ensures DeleteParam(SetParam(q, name, value), name) == DeleteParam(q, name)
  {
    DeleteParamUnchanged(DeleteParam(q, name), name);
    SetParamOthers(q, name, value);
  }

  function EncodePair(p: (string, string)): string
  {
    p.0 + "=" + p.1
  }

  /** The application/x-www-form-urlencoded serializer, without percent-encoding. */
  function Serialise(q: Query): (r: string)
    ensures r == [] <==> q == []
    ensures q != [] ==> EncodePair(q[0]) <= r
  {
    if q == [] then ""
    else if |q| == 1 then EncodePair(q[0])
    else EncodePair(q[0]) + "&" + Serialise(q[1..])
  }

  /** One `name=value` sequence of the form-urlencoded parser; with no `=`, the value is empty. */
  function DecodePair(s: string): (r: (string, string))
    ensures '=' !in r.0
    ensures '&' !in s ==> '&' !in r.0 && '&' !in r.1
    ensures r.0 == s || s == r.0 + "=" + r.1
  {
    var (name, value) := Split(s, '=');
    match value
    case None => (s, "")
    case Some(v) => (name, v)
  }

  /** The application/x-www-form-urlencoded parser: split on `&`, skip empty sequences. */
  function ParseQuery(s: string): (r: Query)
    ensures Parsable(r)
    ensures |r| <= |s|
    decreases |s|
  {
    match IndexOf(s, '&')
    case None => if s == [] then [] else [DecodePair(s)]
    case Some(i) =>
      assert '&' !in s[..i];
      (if i == 0 then [] else [DecodePair(s[..i])]) + ParseQuery(s[i + 1..])
  }

  /** Names free of `&` and `=`, values free of `&`: what survives a serialise/parse round trip unescaped. */
  predicate Parsable(q: Query)
  {
    forall p :: p in q ==> '&' !in p.0 && '=' !in p.0 && '&' !in p.1
  }

  predicate NoHash(q: Query)
  {
    forall p :: p in q ==> '#' !in p.0 && '#' !in p.1
  }

  lemma DecodeEncode(p: (string, string))
    requires '=' !in p.0
    ensures DecodePair(EncodePair(p)) == p
  {
    SplitJoin(p.0, '=', p.1);
  }

  /** Parsing a serialised list gives the list back. */
  lemma {:induction false} ParseSerialise(q: Query)
    requires Parsable(q)
    ensures ParseQuery(Serialise(q)) == q
  {
    if q != [] {
      var e := EncodePair(q[0]);
      assert q[0] in q;
      DecodeEncode(q[0]);
      if |q| == 1 {
        ParseQueryOne(e);
      } else {
        assert Parsable(q[1..]) by {
          forall p | p in q[1..] ensures p in q { }
        }
        ParseSerialise(q[1..]);
        ParseQueryCons(e, Serialise(q[1..]));
      }
    }
  }

  /** A non-empty sequence without `&` parses as one pair. */
  lemma ParseQueryOne(e: string)
    requires e != [] && '&' !in e
    ensures ParseQuery(e) == [DecodePair(e)]
  {
  }

  /** A non-empty sequence without `&`, then `&`, parses as one pair followed by the rest. */
  lemma ParseQueryCons(e: string, rest: string)
    requires e != [] && '&' !in e
    ensures ParseQuery(e + "&" + rest) == [DecodePair(e)] + ParseQuery(rest)
  {
    IndexOfJoin(e, '&', rest);
    var s := e + "&" + rest;
    assert s[..|e|] == e;
    assert s[|e| + 1..] == rest;
  }

  lemma {:induction false} SerialiseNoHash(q: Query)
    requires NoHash(q)
    ensures '#' !in Serialise(q)
  {
    if |q| > 1 {
      assert NoHash(q[1..]) by {
        forall p | p in q[1..] ensures p in q { }
      }
      SerialiseNoHash(q[1..]);
    }
    if q != [] {
      assert q[0] in q;
    }
  }

  predicate AllSlashes(s: string)
  {
    forall k :: 0 <= k < |s| ==> s[k] == '/'
  }

  /**
   * An absolute http or https URL whose host is empty, which the URL parser
   * rejects. It is the one parse failure this model represents.
   */
  predicate EmptyHost(head: string)
  {
    (|head| >= 7 && head[..7] == "http://" && AllSlashes(head[7..])) ||
    (|head| >= 8 && head[..8] == "https://" && AllSlashes(head[8..]))
  }

  /** `new URL(s, origin)`: the fragment starts at the first `#`, the query at the first `?` before it. */
  function Parse(s: string): (r: Option<Url>)
    ensures r.Some? ==> r.value.head <= s && '?' !in r.value.head && '#' !in r.value.head
    ensures r.Some? ==> !EmptyHost(r.value.head) && Parsable(r.value.query)
    ensures r.Some? ==> (r.value.fragment.None? <==> '#' !in s)
    ensures r.None? ==> EmptyHost(Split(Split(s, '#').0, '?').0)
  {
    var (beforeFragment, fragment) := Split(s, '#');
    var (head, query) := Split(beforeFragment, '?');
    if EmptyHost(head) then None
    else Some(Url(head, if query.Some? then ParseQuery(query.value) else [], fragment))
  }

  /** The URL's serialisation; an empty list leaves no `?` behind, as the URLSearchParams update steps do. */
  function ToString(u: Url): (r: string)
    ensures u.head <= r
    ensures u.query != [] ==> |r| > |u.head| && r[|u.head|] == '?'
    ensures u.query == [] && u.fragment.None? ==> r == u.head
  {
    u.head + (if u.query == [] then "" else "?" + Serialise(u.query))
    + (match u.fragment case None => "" case Some(f) => "#" + f)
  }

  /** A URL without a fragment and with a non-empty query serialises as its head, `?` and the query. */
  lemma ToStringQuery(head: string, q: Query)
    requires q != []
    ensures ToString(Url(head, q, None)) == head + "?" + Serialise(q)
  {
  }

  /** A URL that its own serialisation describes unambiguously. */
  predicate WellFormed(u: Url)
  {
    '?' !in u.head && '#' !in u.head && !EmptyHost(u.head) && Parsable(u.query) && NoHash(u.query)
  }

  /** Serialising a well-formed URL and parsing the text again gives the same URL. */
  lemma ParseToString(u: Url)
    requires WellFormed(u)
    ensures Parse(ToString(u)) == Some(u)
  {
    SerialiseNoHash(u.query);
    var beforeFragment := u.head + (if u.query == [] then "" else "?" + Serialise(u.query));
    assert '#' !in beforeFragment;
    assert Split(ToString(u), '#') == (beforeFragment, u.fragment) by {
      match u.fragment
      case None =>
        assert ToString(u) == beforeFragment;
      case Some(f) =>
        assert ToString(u) == beforeFragment + "#" + f;
        SplitJoin(beforeFragment, '#', f);
    }
    var query := if u.query == [] then None else Some(Serialise(u.query));
    assert Split(beforeFragment, '?') == (u.head, query) by {
      if u.query != [] {
        assert beforeFragment == u.head + "?" + Serialise(u.query);
        SplitJoin(u.head, '?', Serialise(u.query));
      } else {
        assert beforeFragment == u.head;
      }
    }
    assert (if query.Some? then ParseQuery(query.value) else []) == u.query by {
      if u.query != [] {
        ParseSerialise(u.query);
      }
    }
  }

  /** The address a GET form submits to: its action, `?`, and its serialised fields. */
  function FormUrl(action: string, fields: Query): string
  {
    action + "?" + Serialise(fields)
  }

  /** With a plain action and plain fields, the URL parser reads the fields back as the query. */
  lemma ParseFormUrl(action: string, fields: Query)
    requires '?' !in action && '#' !in action && !EmptyHost(action)
    requires Parsable(fields) && NoHash(fields)
    ensures Parse(FormUrl(action, fields)) == Some(Url(action, fields, None))
  {
    SerialiseNoHash(fields);
    var s := FormUrl(action, fields);
    assert '#' !in s;
    assert Split(s, '#') == (s, None);
    SplitJoin(action, '?', Serialise(fields));
    ParseSerialise(fields);
  }
}
