/** The standard ordered map, as the sequence of its entries in key order.

The JSON tree keeps its members in a `std::map<std::string, ...>`; the HTTP
message keeps headers and query pairs in one whose comparator folds case.  One
model serves both: `fold` says whether keys are compared in lower case. */
module OrderedMap {

  datatype Entry<+V> = Entry(key: string, value: V)

  /** `std::tolower` in the C locale. */
  function LowerChar(c: char): char {
    if 'A' <= c <= 'Z' then (c as int + 32) as char else c
  }

  function Lower(s: string): string {
    if s == "" then "" else [LowerChar(s[0])] + Lower(s[1..])
  }

  function Norm(fold: bool, s: string): string {
    if fold then Lower(s) else s
  }

  /** Lexicographic order by character code. */
  predicate Less(a: string, b: string) {
    b != "" && (a == "" || a[0] < b[0] || (a[0] == b[0] && Less(a[1..], b[1..])))
  }

  predicate KeyLess(fold: bool, a: string, b: string) {
    Less(Norm(fold, a), Norm(fold, b))
  }

  /** The entries are strictly ascending by compared key: what the map maintains. */
  ghost predicate Sorted<V>(fold: bool, es: seq<Entry<V>>) {
    forall i, j | 0 <= i < j < |es| :: KeyLess(fold, es[i].key, es[j].key)
  }

  /** `m[key] = value`: overwrites an equivalent key in place, keeping the stored spelling. */
  function Put<V>(fold: bool, es: seq<Entry<V>>, key: string, value: V): (r: seq<Entry<V>>)
    ensures r != []
  {
    if es == [] then [Entry(key, value)]
    else if Norm(fold, key) == Norm(fold, es[0].key) then [Entry(es[0].key, value)] + es[1..]
    else if KeyLess(fold, key, es[0].key) then [Entry(key, value)] + es
    else [es[0]] + Put(fold, es[1..], key, value)
  }

  predicate Has<V>(fold: bool, es: seq<Entry<V>>, key: string) {
    es != [] && (Norm(fold, es[0].key) == Norm(fold, key) || Has(fold, es[1..], key))
  }

  function Get<V>(fold: bool, es: seq<Entry<V>>, key: string): V
    requires Has(fold, es, key)
  {
    if Norm(fold, es[0].key) == Norm(fold, key) then es[0].value else Get(fold, es[1..], key)
  }

  /** The finite map the entries stand for. */
  ghost function Contents<V>(fold: bool, es: seq<Entry<V>>): map<string, V> {
    if es == [] then map[] else Contents(fold, es[1..])[Norm(fold, es[0].key) := es[0].value]
  }

  // ----- The order -----

  lemma {:induction false} LessIsStrict(a: string, b: string)
    requires Less(a, b)
    ensures a != b && !Less(b, a)
  {
    if a != "" && a[0] == b[0] {
      LessIsStrict(a[1..], b[1..]);
    }
  }

  lemma {:induction false} LessTransitive(a: string, b: string, c: string)
    requires Less(a, b) && Less(b, c)
    ensures Less(a, c)
  {
    if a != "" && a[0] == b[0] == c[0] {
      LessTransitive(a[1..], b[1..], c[1..]);
    }
  }

  lemma {:induction false} LessTotal(a: string, b: string)
    ensures a == b || Less(a, b) || Less(b, a)
  {
    if a != "" && b != "" && a[0] == b[0] {
      LessTotal(a[1..], b[1..]);
      assert a == [a[0]] + a[1..] && b == [b[0]] + b[1..];
    }
  }

  // ----- The map laws -----

  lemma {:induction false} PutKeys<V>(fold: bool, es: seq<Entry<V>>, key: string, value: V)
    ensures forall e | e in Put(fold, es, key, value) ::
              Norm(fold, e.key) == Norm(fold, key) || exists f | f in es :: f.key == e.key
  {
    if es != [] {
      PutKeys(fold, es[1..], key, value);
    }
  }

  /** Writing keeps the entries strictly ordered. */
  lemma {:induction false} PutSorted<V>(fold: bool, es: seq<Entry<V>>, key: string, value: V)
    requires Sorted(fold, es)
    ensures Sorted(fold, Put(fold, es, key, value))
  {
    if es != [] {
      var k, k0 := Norm(fold, key), Norm(fold, es[0].key);
      if k != k0 {
        if Less(k, k0) {
          forall e | e in es ensures KeyLess(fold, key, e.key) {
            if Norm(fold, e.key) != k0 {
              LessTransitive(k, k0, Norm(fold, e.key));
            }
          }
        } else {
          LessTotal(k, k0);
          PutSorted(fold, es[1..], key, value);
          PutKeys(fold, es[1..], key, value);
        }
      }
    }
  }

  /** Writing then looking at the whole map is the map update. */
  lemma {:induction false} PutContents<V>(fold: bool, es: seq<Entry<V>>, key: string, value: V)
    requires Sorted(fold, es)
    ensures Contents(fold, Put(fold, es, key, value)) == Contents(fold, es)[Norm(fold, key) := value]
  {
    if es != [] && Norm(fold, key) != Norm(fold, es[0].key) && !KeyLess(fold, key, es[0].key) {
      PutContents(fold, es[1..], key, value);
      var r := Put(fold, es, key, value);
      assert r[1..] == Put(fold, es[1..], key, value);
    } else if es != [] && Norm(fold, key) != Norm(fold, es[0].key) {
      var r := Put(fold, es, key, value);
      assert r[1..] == es;
    } else if es != [] {
      var r := Put(fold, es, key, value);
      assert r[1..] == es[1..];
    }
  }

  lemma {:induction false} PutGet<V>(fold: bool, es: seq<Entry<V>>, key: string, value: V)
    ensures Has(fold, Put(fold, es, key, value), key)
    ensures Get(fold, Put(fold, es, key, value), key) == value
  {
    if es != [] && Norm(fold, key) != Norm(fold, es[0].key) && !KeyLess(fold, key, es[0].key) {
      PutGet(fold, es[1..], key, value);
    }
  }

  /** Overwriting an equivalent key changes its value only. */
  lemma {:induction false} PutInPlace<V>(fold: bool, es: seq<Entry<V>>, key: string, value: V, i: nat)
    requires Sorted(fold, es) && i < |es| && Norm(fold, es[i].key) == Norm(fold, key)
    ensures Put(fold, es, key, value) == es[i := Entry(es[i].key, value)]
  {
    if i > 0 {
      assert KeyLess(fold, es[0].key, es[i].key);
      LessIsStrict(Norm(fold, es[0].key), Norm(fold, key));
      PutInPlace(fold, es[1..], key, value, i - 1);
    }
  }

  /** The last write to a key wins. */
  lemma {:induction false} PutPut<V>(fold: bool, es: seq<Entry<V>>, key: string, v: V, w: V)
    ensures Put(fold, Put(fold, es, key, v), key, w) == Put(fold, es, key, w)
  {
    if es != [] && Norm(fold, key) != Norm(fold, es[0].key) && !KeyLess(fold, key, es[0].key) {
      PutPut(fold, es[1..], key, v, w);
      assert Put(fold, es, key, v)[1..] == Put(fold, es[1..], key, v);
    }
  }

  /** Writing the next larger key appends: why entries printed in order are rebuilt in order. */
  lemma {:induction false} PutLast<V>(fold: bool, es: seq<Entry<V>>, e: Entry<V>)
    requires Sorted(fold, es + [e])
    ensures Put(fold, es, e.key, e.value) == es + [e]
  {
    if es != [] {
      var all := es + [e];
      assert KeyLess(fold, all[0].key, all[|es|].key);
      LessIsStrict(Norm(fold, es[0].key), Norm(fold, e.key));
      assert es[1..] + [e] == all[1..];
      PutLast(fold, es[1..], e);
    }
  }
}
