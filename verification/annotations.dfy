/**
 Annotation maps of an IP pool: the conversion between the configuration's
 untyped map and the pool's string map (expandStringMap), and the key check
 that collects every qualified-name failure (validateAnnotations), both in
 calico/resource_ippool.go.
 */
module Annotations {

  /** A value held in the configuration's generic map (Go's `interface{}`). */
  datatype Value = String(s: string) | Other

  /** Every value of the map is a string: what the type assertion in expandStringMap demands. */
  predicate AllStrings(m: map<string, Value>)
  {
    forall k :: k in m ==> m[k].String?
  }

  /** Converts the configuration's generic map into the pool's string map. */
  function ExpandStringMap(m: map<string, Value>): (r: map<string, string>)
    requires AllStrings(m)
    ensures r.Keys == m.Keys
    ensures forall k :: k in m ==> m[k] == String(r[k])
  {
    map k | k in m :: m[k].s
  }

  /** Stores a pool's string map back into the configuration's generic map. */
  function FlattenStringMap(m: map<string, string>): (r: map<string, Value>)
    ensures AllStrings(r)
    ensures r.Keys == m.Keys
    ensures forall k :: k in m ==> r[k] == String(m[k])
  {
    map k | k in m :: String(m[k])
  }

  /** Flattening then expanding returns the pool's map unchanged. */
  lemma ExpandFlattenedMap(m: map<string, string>)
    ensures ExpandStringMap(FlattenStringMap(m)) == m
  {
  }

  /** Expanding then flattening returns the configuration's map unchanged. */
  lemma FlattenExpandedMap(m: map<string, Value>)
    requires AllStrings(m)
    ensures FlattenStringMap(ExpandStringMap(m)) == m
  {
  }

  /** Lower-cases one character; only the ASCII letters A-Z are mapped. */
  function LowerChar(c: char): char
  {
    if 'A' <= c <= 'Z' then (c as int - 'A' as int + 'a' as int) as char else c
  }

  /** Lower-cases a key before it is checked. */
  function Lower(s: string): (r: string)
    ensures |r| == |s|
    ensures forall i :: 0 <= i < |r| ==> !('A' <= r[i] <= 'Z')
    ensures forall i :: 0 <= i < |s| && 'A' <= s[i] <= 'Z' ==> r[i] as int == s[i] as int + 32
    ensures forall i :: 0 <= i < |s| && !('A' <= s[i] <= 'Z') ==> r[i] == s[i]
  {
    seq(|s|, i requires 0 <= i < |s| => LowerChar(s[i]))
  }

  /** One validation error: the schema attribute, the offending key and one message about it. */
  datatype AnnotationError = AnnotationError(attribute: string, annotationKey: string, message: string)

  /** The errors reported for one key: one per message, in the order of the messages. */
  function KeyErrors(attribute: string, k: string, messages: seq<string>): seq<AnnotationError>
  {
    seq(|messages|, i requires 0 <= i < |messages| => AnnotationError(attribute, k, messages[i]))
  }

  /**
   Reference definition of the errors collected when the keys are visited in
   the order `keys`: each key's errors, one key after the other.
   */
  function ExpectedErrors(attribute: string, keys: seq<string>, qualifiedName: string -> seq<string>)
    : seq<AnnotationError>
  {
    if |keys| == 0 then []
    else
      var last := keys[|keys| - 1];
      ExpectedErrors(attribute, keys[..|keys| - 1], qualifiedName)
        + KeyErrors(attribute, last, qualifiedName(Lower(last)))
  }

  /** `order` visits every key of `m` exactly once: one possible iteration order of a Go map. */
  predicate Enumerates(order: seq<string>, m: map<string, Value>)
  {
    && (forall k :: k in m ==> k in order)
    && (forall i :: 0 <= i < |order| ==> order[i] in m)
    && Distinct(order)
  }

  /** Every collected error names the attribute, a visited key and a message the check gave for it. */
  lemma {:induction false} ExpectedErrorsSound(attribute: string, keys: seq<string>, qualifiedName: string -> seq<string>)
    ensures forall e :: e in ExpectedErrors(attribute, keys, qualifiedName) ==>
      && e.attribute == attribute
      && e.annotationKey in keys
      && e.message in qualifiedName(Lower(e.annotationKey))
  {
    if |keys| > 0 {
      var init := keys[..|keys| - 1];
      var last := keys[|keys| - 1];
      ExpectedErrorsSound(attribute, init, qualifiedName);
      forall e | e in ExpectedErrors(attribute, keys, qualifiedName)
        ensures e.attribute == attribute
        ensures e.annotationKey in keys
        ensures e.message in qualifiedName(Lower(e.annotationKey))
      {
        if e in ExpectedErrors(attribute, init, qualifiedName) {
          assert e.annotationKey in init;
        } else {
          var msgs := qualifiedName(Lower(last));
          var i :| 0 <= i < |msgs| && KeyErrors(attribute, last, msgs)[i] == e;
          assert e.annotationKey == last;
        }
      }
    }
  }

  /** No short-circuit: every message for every visited key is among the collected errors. */
  lemma {:induction false} ExpectedErrorsComplete(attribute: string, keys: seq<string>, qualifiedName: string -> seq<string>)
    ensures forall k, msg :: k in keys && msg in qualifiedName(Lower(k)) ==>
      AnnotationError(attribute, k, msg) in ExpectedErrors(attribute, keys, qualifiedName)
  {
    if |keys| > 0 {
      var init := keys[..|keys| - 1];
      var last := keys[|keys| - 1];
      ExpectedErrorsComplete(attribute, init, qualifiedName);
      forall k, msg | k in keys && msg in qualifiedName(Lower(k))
        ensures AnnotationError(attribute, k, msg) in ExpectedErrors(attribute, keys, qualifiedName)
      {
        if k == last {
          var msgs := qualifiedName(Lower(last));
          var i :| 0 <= i < |msgs| && msgs[i] == msg;
          assert KeyErrors(attribute, last, msgs)[i] == AnnotationError(attribute, k, msg);
        } else {
          assert k in init by {
            var j :| 0 <= j < |keys| && keys[j] == k;
            assert j < |keys| - 1;
            assert init[j] == k;
          }
        }
      }
    }
  }

  /** The errors about one key, in the order they were collected. */
  function ErrorsAbout(es: seq<AnnotationError>, k: string): seq<AnnotationError>
  {
    if |es| == 0 then []
    else ErrorsAbout(es[..|es| - 1], k) + (if es[|es| - 1].annotationKey == k then [es[|es| - 1]] else [])
  }

  /** Selecting the errors about a key distributes over concatenation. */
  lemma {:induction false} ErrorsAboutAppend(a: seq<AnnotationError>, b: seq<AnnotationError>, k: string)
    ensures ErrorsAbout(a + b, k) == ErrorsAbout(a, k) + ErrorsAbout(b, k)
    decreases |b|
  {
    if |b| == 0 {
      assert a + b == a;
    } else {
      var b' := b[..|b| - 1];
      assert (a + b)[..|a + b| - 1] == a + b';
      ErrorsAboutAppend(a, b', k);
    }
  }

  /** The errors reported for key `k'` are all about `k'` and none is about any other key. */
  lemma {:induction false} ErrorsAboutKeyErrors(attribute: string, k: string, k': string, messages: seq<string>)
    ensures ErrorsAbout(KeyErrors(attribute, k', messages), k) == (if k == k' then KeyErrors(attribute, k', messages) else [])
    decreases |messages|
  {
    if |messages| > 0 {
      var init := messages[..|messages| - 1];
      assert KeyErrors(attribute, k', messages)[..|messages| - 1] == KeyErrors(attribute, k', init);
      ErrorsAboutKeyErrors(attribute, k, k', init);
    }
  }

  /** No key occurs twice in `keys`. */
  predicate Distinct(keys: seq<string>)
  {
    forall i, j :: 0 <= i < j < |keys| ==> keys[i] != keys[j]
  }

  /** Dropping the last key keeps the keys distinct, and the last key is not among the rest. */
  lemma DistinctInit(keys: seq<string>)
    requires |keys| > 0 && Distinct(keys)
    ensures Distinct(keys[..|keys| - 1])
    ensures keys[|keys| - 1] !in keys[..|keys| - 1]
  {
    var init := keys[..|keys| - 1];
    forall j | 0 <= j < |init| ensures init[j] != keys[|keys| - 1] {
      assert keys[j] != keys[|keys| - 1];
    }
  }

  /**
   One error per message per failing key: when the visited keys are distinct,
   the errors about a visited key are exactly its messages, in order, and a
   key that was not visited has none.
   */
  lemma {:induction false} ExpectedErrorsPerKey(attribute: string, keys: seq<string>, qualifiedName: string -> seq<string>, k: string)
    requires Distinct(keys)
    ensures ErrorsAbout(ExpectedErrors(attribute, keys, qualifiedName), k)
      == (if k in keys then KeyErrors(attribute, k, qualifiedName(Lower(k))) else [])
  {
    if |keys| > 0 {
      var init := keys[..|keys| - 1];
      var last := keys[|keys| - 1];
      var front := ExpectedErrors(attribute, init, qualifiedName);
      var back := KeyErrors(attribute, last, qualifiedName(Lower(last)));
      assert ExpectedErrors(attribute, keys, qualifiedName) == front + back;
      assert keys == init + [last];
      DistinctInit(keys);
      ExpectedErrorsPerKey(attribute, init, qualifiedName, k);
      ErrorsAboutAppend(front, back, k);
      ErrorsAboutKeyErrors(attribute, k, last, qualifiedName(Lower(last)));
      if k == last {
        assert ErrorsAbout(front, k) == [];
        assert ErrorsAbout(front + back, k) == back;
      } else {
        assert ErrorsAbout(back, k) == [];
        assert ErrorsAbout(front + back, k) == ErrorsAbout(front, k);
        assert k in keys <==> k in init;
      }
    }
  }

  /**
   What the collected errors mean, for a visiting order that lists every key
   of the map once: no errors iff every key passes, every message of every
   key is reported, nothing else is, and each key's errors are its messages.
   */
  lemma ExpectedErrorsMeaning(value: map<string, Value>, key: string, order: seq<string>, qualifiedName: string -> seq<string>)
    requires Enumerates(order, value)
    ensures var es := ExpectedErrors(key, order, qualifiedName);
      && (es == [] <==> forall k :: k in value ==> qualifiedName(Lower(k)) == [])
      && (forall k, msg :: k in value && msg in qualifiedName(Lower(k)) ==> AnnotationError(key, k, msg) in es)
      && (forall e :: e in es ==>
            e.attribute == key && e.annotationKey in value && e.message in qualifiedName(Lower(e.annotationKey)))
      && (forall k :: ErrorsAbout(es, k) == (if k in value then KeyErrors(key, k, qualifiedName(Lower(k))) else []))
  {
    var es := ExpectedErrors(key, order, qualifiedName);
    ExpectedErrorsSound(key, order, qualifiedName);
    ExpectedErrorsComplete(key, order, qualifiedName);
    forall k ensures ErrorsAbout(es, k) == (if k in value then KeyErrors(key, k, qualifiedName(Lower(k))) else []) {
      ExpectedErrorsPerKey(key, order, qualifiedName, k);
    }
    if es == [] {
      forall k | k in value ensures qualifiedName(Lower(k)) == [] {
        assert ErrorsAbout(es, k) == [];
        assert |KeyErrors(key, k, qualifiedName(Lower(k)))| == |qualifiedName(Lower(k))|;
      }
    }
  }

  /**
   Checks every annotation key, lower-cased, against the qualified-name rule
   and collects one error per message for every failing key. Warnings are
   never produced. `order` is the order in which the map's keys are visited.
   */
  method ValidateAnnotations(value: map<string, Value>, key: string, order: seq<string>, qualifiedName: string -> seq<string>)
    returns (ws: seq<string>, es: seq<AnnotationError>)
    requires Enumerates(order, value)
    ensures ws == []
    ensures es == ExpectedErrors(key, order, qualifiedName)
    ensures es == [] <==> forall k :: k in value ==> qualifiedName(Lower(k)) == []
    ensures forall k, msg :: k in value && msg in qualifiedName(Lower(k)) ==> AnnotationError(key, k, msg) in es
    ensures forall e :: e in es ==>
      e.attribute == key && e.annotationKey in value && e.message in qualifiedName(Lower(e.annotationKey))
    ensures forall k :: ErrorsAbout(es, k) == (if k in value then KeyErrors(key, k, qualifiedName(Lower(k))) else [])
  {
    ws := [];
    es := [];
    var i := 0;
    while i < |order|
      invariant 0 <= i <= |order|
      invariant es == ExpectedErrors(key, order[..i], qualifiedName)
    {
      var k := order[i];
      var errors := qualifiedName(Lower(k));
      if |errors| > 0 {
        var j := 0;
        while j < |errors|
          invariant 0 <= j <= |errors|
          invariant es == ExpectedErrors(key, order[..i], qualifiedName) + KeyErrors(key, k, errors[..j])
        {
          es := es + [AnnotationError(key, k, errors[j])];
          j := j + 1;
        }
        assert errors[..j] == errors;
      }
      assert order[..i + 1][..i] == order[..i];
      i := i + 1;
    }
    assert order[..i] == order;
    ExpectedErrorsMeaning(value, key, order, qualifiedName);
  }
}
