/** `load_json_files` of app.py: it reads every `.json` file of a data
    directory, and app.py passes the records, newest first, to the page
    templates.

    The file system is not modelled. A directory is given as the list of
    (file name, parsed record) pairs that `os.listdir` and `json.load` would
    produce, in listing order, or as `None` when the directory does not exist. */
module ContentLoader {
  import opened Wrappers

  /** One parsed JSON file. `date` is the value of its `date` key when the key is
      present; `content` stands for the rest of the object, which the loader
      carries along without looking at it. */
  datatype Record = Record(date: Option<string>, content: string)

  /** A directory entry: its file name and the record its file parses to. */
  type Entry = (string, Record)

  const JsonSuffix: string := ".json"

  /** `s.endswith(suffix)`: `s` is some stem followed by `suffix`. */
  predicate EndsWith(s: string, suffix: string)
    ensures EndsWith(s, suffix) ==> |suffix| <= |s| && s[..|s| - |suffix|] + suffix == s
    ensures forall stem :: stem + suffix == s ==> EndsWith(s, suffix)
  {
    |suffix| <= |s| && s[|s| - |suffix|..] == suffix
  }

  /** The sort key `x.get('date', '')`: the date, or the empty string when the
      record has none. */
  function DateKey(r: Record): (k: string)
    ensures r.date.None? ==> k == ""
    ensures r.date.Some? ==> k == r.date.value
  {
    r.date.GetOr("")
  }

  // ---------------------------------------------------------------------------
  // Python's string order

  /** `a <= b` on Python strings: lexicographic order on code points, in which
      a proper prefix comes first. */
  predicate LexLe(a: string, b: string)
    ensures a <= b ==> LexLe(a, b)
    ensures a != [] && b != [] && a[0] != b[0] ==> (LexLe(a, b) <==> a[0] < b[0])
  {
    if a == [] then true
    else if b == [] then false
    else if a[0] != b[0] then a[0] < b[0]
    else LexLe(a[1..], b[1..])
  }

  /** Which order `LexLe` is: `a` is a prefix of `b`, or at the first position
      where they differ, `a` has the smaller code point. */
  lemma {:induction false} LexLeMeaning(a: string, b: string)
    ensures LexLe(a, b) <==>
      a <= b || exists k :: 0 <= k < |a| && k < |b| && a[..k] == b[..k] && a[k] < b[k]
  {
    if a == [] || b == [] {
    } else if a[0] != b[0] {
      assert forall k :: 0 < k <= |a| && k <= |b| ==> a[..k][0] == a[0] && b[..k][0] == b[0];
      if a[0] < b[0] {
        assert a[..0] == b[..0];
      }
    } else {
      LexLeMeaning(a[1..], b[1..]);
      assert a == [a[0]] + a[1..] && b == [b[0]] + b[1..];
      assert a <= b <==> a[1..] <= b[1..];
      if k :| 0 <= k < |a| && k < |b| && a[..k] == b[..k] && a[k] < b[k] {
        assert k != 0;
        assert a[1..][..k - 1] == a[..k][1..];
        assert b[1..][..k - 1] == b[..k][1..];
        assert a[1..][k - 1] < b[1..][k - 1];
      }
      if k :| 0 <= k < |a| - 1 && k < |b| - 1 && a[1..][..k] == b[1..][..k] && a[1..][k] < b[1..][k] {
        assert a[..k + 1] == [a[0]] + a[1..][..k];
        assert b[..k + 1] == [b[0]] + b[1..][..k];
        assert a[k + 1] < b[k + 1];
      }
    }
  }

  lemma {:induction false} LexLeReflexive(a: string)
    ensures LexLe(a, a)
  {
    if a != [] { LexLeReflexive(a[1..]); }
  }

  lemma {:induction false} LexLeTotal(a: string, b: string)
    ensures LexLe(a, b) || LexLe(b, a)
  {
    if a != [] && b != [] && a[0] == b[0] { LexLeTotal(a[1..], b[1..]); }
  }

  lemma {:induction false} LexLeAntisymmetric(a: string, b: string)
    requires LexLe(a, b) && LexLe(b, a)
    ensures a == b
  {
    if a != [] && b != [] {
      LexLeAntisymmetric(a[1..], b[1..]);
      assert a == [a[0]] + a[1..] && b == [b[0]] + b[1..];
    }
  }

  lemma {:induction false} LexLeTransitive(a: string, b: string, c: string)
    requires LexLe(a, b) && LexLe(b, c)
    ensures LexLe(a, c)
  {
    if a != [] && b != [] && c != [] && a[0] == b[0] && b[0] == c[0] {
      LexLeTransitive(a[1..], b[1..], c[1..]);
    }
  }

  /** The empty string is the least string: only it sorts at or below "". */
  lemma EmptyIsLeast(a: string)
    ensures LexLe("", a)
    ensures LexLe(a, "") <==> a == ""
  {
  }

  // ---------------------------------------------------------------------------
  // Filtering by suffix

  /** `filename.endswith('.json')`. */
  predicate IsJsonEntry(e: Entry)
    ensures IsJsonEntry(e) <==> exists stem :: stem + JsonSuffix == e.0
  {
    EndsWith(e.0, JsonSuffix)
  }

  /** The records of the entries whose name ends in `.json`, in listing order. */
  function JsonRecords(listing: seq<Entry>): (r: seq<Record>)
    ensures |r| <= |listing|
    ensures |r| == |listing| <==> forall i :: 0 <= i < |listing| ==> IsJsonEntry(listing[i])
  {
    if listing == [] then []
    else if IsJsonEntry(listing[0]) then [listing[0].1] + JsonRecords(listing[1..])
    else JsonRecords(listing[1..])
  }

  lemma {:induction false} JsonRecordsAppend(a: seq<Entry>, b: seq<Entry>)
    ensures JsonRecords(a + b) == JsonRecords(a) + JsonRecords(b)
  {
    if a == [] {
      assert a + b == b;
    } else {
      assert (a + b)[1..] == a[1..] + b;
      JsonRecordsAppend(a[1..], b);
    }
  }

  /** The positions of the `.json` entries at or after `lo`, in increasing order. */
  function JsonPositions(listing: seq<Entry>, lo: nat): (ps: seq<nat>)
    decreases |listing| - lo
    ensures forall k :: 0 <= k < |ps| ==> lo <= ps[k] < |listing|
    ensures forall k, m :: 0 <= k < m < |ps| ==> ps[k] < ps[m]
    ensures forall i :: lo <= i < |listing| ==> (i in ps <==> IsJsonEntry(listing[i]))
  {
    if lo >= |listing| then []
    else if IsJsonEntry(listing[lo]) then [lo] + JsonPositions(listing, lo + 1)
    else JsonPositions(listing, lo + 1)
  }

  lemma {:induction false} JsonRecordsFrom(listing: seq<Entry>, lo: nat)
    requires lo <= |listing|
    decreases |listing| - lo
    ensures |JsonRecords(listing[lo..])| == |JsonPositions(listing, lo)|
    ensures forall k :: 0 <= k < |JsonPositions(listing, lo)| ==>
      JsonRecords(listing[lo..])[k] == listing[JsonPositions(listing, lo)[k]].1
  {
    if lo < |listing| {
      JsonRecordsFrom(listing, lo + 1);
      var tail := listing[lo + 1..];
      assert listing[lo..][1..] == tail;
      assert listing[lo..][0] == listing[lo];
      var rest := JsonRecords(tail);
      var ps := JsonPositions(listing, lo + 1);
      if IsJsonEntry(listing[lo]) {
        assert JsonRecords(listing[lo..]) == [listing[lo].1] + rest;
        assert JsonPositions(listing, lo) == [lo] + ps;
      } else {
        assert JsonRecords(listing[lo..]) == rest;
        assert JsonPositions(listing, lo) == ps;
      }
    }
  }

  /** One record per `.json` entry and none for any other entry: the loaded
      records are, in order, the records of the entries at the `.json`
      positions of the listing. */
  lemma JsonRecordsExactly(listing: seq<Entry>)
    ensures |JsonRecords(listing)| == |JsonPositions(listing, 0)|
    ensures forall k :: 0 <= k < |JsonRecords(listing)| ==>
      JsonRecords(listing)[k] == listing[JsonPositions(listing, 0)[k]].1
  {
    JsonRecordsFrom(listing, 0);
    assert listing[0..] == listing;
  }

  // ---------------------------------------------------------------------------
  // sorted(items, key=lambda x: x.get('date', ''), reverse=True)

  /** Newest first: no record has a smaller key than one after it. */
  ghost predicate SortedByDateDesc(s: seq<Record>)
  {
    forall i, j :: 0 <= i < j < |s| ==> LexLe(DateKey(s[j]), DateKey(s[i]))
  }

  /** The records of `s` whose key is `k`, in their order in `s`. */
  function WithKey(s: seq<Record>, k: string): seq<Record>
  {
    if s == [] then []
    else if DateKey(s[0]) == k then [s[0]] + WithKey(s[1..], k)
    else WithKey(s[1..], k)
  }

  /** Inserts `x` in front of the first record whose key is not larger than
      its own, so that `x` precedes every record with an equal key. */
  function InsertByDateDesc(x: Record, s: seq<Record>): (r: seq<Record>)
    ensures |r| == |s| + 1
    ensures x in r && forall y :: y in s ==> y in r
  {
    if s == [] then [x]
    else if LexLe(DateKey(s[0]), DateKey(x)) then [x] + s
    else [s[0]] + InsertByDateDesc(x, s[1..])
  }

  /** Python's `sorted(..., reverse=True)` by `DateKey`: a stable sort into
      non-increasing key order. Records with equal keys keep their input order. */
  function SortByDateDesc(s: seq<Record>): (r: seq<Record>)
    ensures |r| == |s|
    ensures forall y :: y in s ==> y in r
  {
    if s == [] then [] else InsertByDateDesc(s[0], SortByDateDesc(s[1..]))
  }

  lemma {:induction false} InsertPermutation(x: Record, s: seq<Record>)
    ensures multiset(InsertByDateDesc(x, s)) == multiset(s) + multiset{x}
  {
    if s != [] && !LexLe(DateKey(s[0]), DateKey(x)) {
      InsertPermutation(x, s[1..]);
      assert s == [s[0]] + s[1..];
    }
  }

  lemma {:induction false} InsertSorted(x: Record, s: seq<Record>)
    requires SortedByDateDesc(s)
    ensures SortedByDateDesc(InsertByDateDesc(x, s))
  {
    var r := InsertByDateDesc(x, s);
    if s == [] {
    } else if LexLe(DateKey(s[0]), DateKey(x)) {
      forall i, j | 0 <= i < j < |r|
        ensures LexLe(DateKey(r[j]), DateKey(r[i]))
      {
        if i == 0 && j > 1 {
          LexLeTransitive(DateKey(s[j - 1]), DateKey(s[0]), DateKey(x));
        }
      }
    } else {
      assert LexLe(DateKey(x), DateKey(s[0])) by { LexLeTotal(DateKey(x), DateKey(s[0])); }
      InsertSorted(x, s[1..]);
      InsertPermutation(x, s[1..]);
      var rest := InsertByDateDesc(x, s[1..]);
      forall i, j | 0 <= i < j < |r|
        ensures LexLe(DateKey(r[j]), DateKey(r[i]))
      {
        if i == 0 {
          // r[j] is x or an element of s[1..]; both sort at or below s[0].
          assert r[j] in multiset(rest);
          assert r[j] == x || r[j] in multiset(s[1..]);
          if r[j] != x {
            var k :| 1 <= k < |s| && s[k] == r[j];
          }
        }
      }
    }
  }

  lemma {:induction false} SortPermutation(s: seq<Record>)
    ensures multiset(SortByDateDesc(s)) == multiset(s)
  {
    if s != [] {
      SortPermutation(s[1..]);
      InsertPermutation(s[0], SortByDateDesc(s[1..]));
      assert s == [s[0]] + s[1..];
    }
  }

  lemma {:induction false} SortSorted(s: seq<Record>)
    ensures SortedByDateDesc(SortByDateDesc(s))
  {
    if s != [] {
      SortSorted(s[1..]);
      InsertSorted(s[0], SortByDateDesc(s[1..]));
    }
  }

  lemma {:induction false} InsertStable(x: Record, s: seq<Record>, k: string)
    requires SortedByDateDesc(s)
    ensures WithKey(InsertByDateDesc(x, s), k) ==
      if DateKey(x) == k then [x] + WithKey(s, k) else WithKey(s, k)
  {
    if s == [] {
    } else if LexLe(DateKey(s[0]), DateKey(x)) {
      assert ([x] + s)[1..] == s;
    } else {
      InsertStable(x, s[1..], k);
      assert ([s[0]] + InsertByDateDesc(x, s[1..]))[1..] == InsertByDateDesc(x, s[1..]);
      if DateKey(x) == k {
        // s[0] sorts strictly above x, so it does not carry the key k.
        assert DateKey(s[0]) != k by {
          if DateKey(s[0]) == k { LexLeReflexive(k); }
        }
      }
    }
  }

  /** Stability: for every key, the records carrying it appear in the sorted
      result in the same order as in the input. */
  lemma {:induction false} SortStable(s: seq<Record>, k: string)
    ensures WithKey(SortByDateDesc(s), k) == WithKey(s, k)
  {
    if s != [] {
      SortStable(s[1..], k);
      SortSorted(s[1..]);
      InsertStable(s[0], SortByDateDesc(s[1..]), k);
    }
  }

  /** Records without a date, and those whose date is "", come after every
      dated record. */
  lemma UndatedLast(s: seq<Record>, i: int, j: int)
    requires SortedByDateDesc(s)
    requires 0 <= i < j < |s| && DateKey(s[i]) == ""
    ensures DateKey(s[j]) == ""
  {
    EmptyIsLeast(DateKey(s[j]));
  }

  // ---------------------------------------------------------------------------
  // load_json_files

  /** The directory's entries, or none when it does not exist. */
  function Listing(directory: Option<seq<Entry>>): (listing: seq<Entry>)
    ensures directory.None? ==> listing == []
    ensures directory.Some? ==> listing == directory.value
  {
    directory.GetOr([])
  }

  /** `load_json_files(directory)`: collects the record of every `.json` entry in
      listing order, then returns them sorted newest first. */
  method LoadJsonFiles(directory: Option<seq<Entry>>) returns (items: seq<Record>)
    ensures items == SortByDateDesc(JsonRecords(Listing(directory)))
    ensures SortedByDateDesc(items)
    ensures multiset(items) == multiset(JsonRecords(Listing(directory)))
    ensures forall k :: WithKey(items, k) == WithKey(JsonRecords(Listing(directory)), k)
    ensures directory.None? ==> items == []
  {
    var loaded: seq<Record> := [];
    if directory.Some? {
      var listing := directory.value;
      for i := 0 to |listing|
        invariant loaded == JsonRecords(listing[..i])
      {
        var (filename, record) := listing[i];
        JsonRecordsAppend(listing[..i], [listing[i]]);
        assert listing[..i + 1] == listing[..i] + [listing[i]];
        if EndsWith(filename, JsonSuffix) {
          loaded := loaded + [record];
        }
      }
      assert listing[..|listing|] == listing;
    }
    items := SortByDateDesc(loaded);
    SortSorted(loaded);
    SortPermutation(loaded);
    forall k ensures WithKey(items, k) == WithKey(loaded, k) {
      SortStable(loaded, k);
    }
  }
}
