/** The symptom dictionary (app.py:31-32) and the risk scorer (app.py:74-78). */
module Symptoms {
  import opened Text
  import opened Wrappers

  /** A symptom phrase with its risk percentage: a row of the symptom table, an entry
      of the dictionary built from it, and a pair of the matched list. */
  datatype Entry = Entry(symptom: String, risk: real)

  /** An insertion-ordered dictionary from symptom phrase to risk, as a sequence of
      entries; a well-formed one has distinct keys. */
  type Table = seq<Entry>

  predicate DistinctKeys(t: Table) {
    forall i, j :: 0 <= i < j < |t| ==> t[i].symptom != t[j].symptom
  }

  function Keys(t: Table): set<String> {
    set e | e in t :: e.symptom
  }

  /** `d.get(k)`. */
  function Lookup(t: Table, k: String): (r: Option<real>)
    ensures r.Some? <==> k in Keys(t)
    ensures r.Some? ==> Entry(k, r.value) in t
  {
    if t == [] then None
    else if t[0].symptom == k then Some(t[0].risk)
    else
      assert Keys(t) == {t[0].symptom} + Keys(t[1..]);
      Lookup(t[1..], k)
  }

  /** `d[k] = v` on a Python dict: an existing key keeps its place and takes the new
      value, a new key goes to the end. */
  function Insert(t: Table, k: String, v: real): Table {
    if t == [] then [Entry(k, v)]
    else if t[0].symptom == k then [Entry(k, v)] + t[1..]
    else [t[0]] + Insert(t[1..], k, v)
  }

  /** An existing key keeps every key in its place; a new key is appended with its
      value. */
  lemma {:induction false} InsertShape(t: Table, k: String, v: real)
    ensures k in Keys(t) ==>
      && |Insert(t, k, v)| == |t|
      && forall i :: 0 <= i < |t| ==> Insert(t, k, v)[i].symptom == t[i].symptom
    ensures k !in Keys(t) ==> Insert(t, k, v) == t + [Entry(k, v)]
  {
    if t != [] {
      assert Keys(t) == {t[0].symptom} + Keys(t[1..]);
      if t[0].symptom != k {
        InsertShape(t[1..], k, v);
        assert forall i :: 1 <= i < |t| ==> t[i] == t[1..][i - 1];
      }
    }
  }

  /** `d[k] = v` adds `k` to the keys and no other key. */
  lemma {:induction false} InsertKeys(t: Table, k: String, v: real)
    ensures Keys(Insert(t, k, v)) == Keys(t) + {k}
  {
    if t != [] {
      assert Keys(t) == {t[0].symptom} + Keys(t[1..]);
      var r := Insert(t, k, v);
      if t[0].symptom == k {
        assert Keys(r) == {k} + Keys(t[1..]);
      } else {
        InsertKeys(t[1..], k, v);
        assert Keys(r) == {t[0].symptom} + Keys(Insert(t[1..], k, v));
      }
    }
  }

  /** After `d[k] = v`, `d[k]` is `v` and every other key reads as before. */
  lemma {:induction false} InsertLookup(t: Table, k: String, v: real)
    ensures Lookup(Insert(t, k, v), k) == Some(v)
    ensures forall k' :: k' != k ==> Lookup(Insert(t, k, v), k') == Lookup(t, k')
  {
    if t != [] && t[0].symptom != k {
      InsertLookup(t[1..], k, v);
    }
  }

  /** Inserting keeps the keys of a dictionary distinct. */
  lemma {:induction false} InsertDistinct(t: Table, k: String, v: real)
    requires DistinctKeys(t)
    ensures DistinctKeys(Insert(t, k, v))
  {
    var r := Insert(t, k, v);
    InsertShape(t, k, v);
    if k in Keys(t) {
      assert forall i, j :: 0 <= i < j < |r| ==> r[i].symptom == t[i].symptom && r[j].symptom == t[j].symptom;
    } else {
      assert forall i :: 0 <= i < |t| ==> r[i] == t[i];
      assert forall e :: e in t ==> e.symptom in Keys(t);
    }
  }

  /** Reference reading of `dict(zip(keys.str.lower(), risks))`: the risk of the LAST
      row whose lowered phrase is `k`, or nothing if there is none. */
  function LastRisk(rows: seq<Entry>, k: String): (r: Option<real>)
    ensures r.None? <==> forall i :: 0 <= i < |rows| ==> Lower(rows[i].symptom) != k
  {
    if rows == [] then None
    else if Lower(rows[|rows| - 1].symptom) == k then Some(rows[|rows| - 1].risk)
    else LastRisk(rows[..|rows| - 1], k)
  }

  /** The dictionary of app.py:32, built row by row. Its keys are distinct and lower
      case, and each key holds the risk of the last row that lowers to it. */
  function BuildTable(rows: seq<Entry>): (r: Table)
    ensures DistinctKeys(r)
    ensures forall k :: Lookup(r, k) == LastRisk(rows, k)
    ensures forall e :: e in r ==> Lower(e.symptom) == e.symptom
  {
    if rows == [] then []
    else
      var last := rows[|rows| - 1];
      var before := BuildTable(rows[..|rows| - 1]);
      var r := Insert(before, Lower(last.symptom), last.risk);
      LowerIdempotent(last.symptom);
      InsertDistinct(before, Lower(last.symptom), last.risk);
      InsertLookup(before, Lower(last.symptom), last.risk);
      InsertKeys(before, Lower(last.symptom), last.risk);
      assert forall e :: e in r ==> e.symptom in Keys(r);
      assert forall e :: e in before ==> e.symptom in Keys(before);
      assert forall x :: x in Keys(before) ==> Lower(x) == x;
      r
  }

  /** The index of the first row whose lowered phrase is `k`, or `|rows|` if none is. */
  function FirstRow(rows: seq<Entry>, k: String): (n: nat)
    ensures n <= |rows|
    ensures forall i :: 0 <= i < n ==> Lower(rows[i].symptom) != k
    ensures n < |rows| ==> Lower(rows[n].symptom) == k
  {
    if rows == [] then 0
    else if Lower(rows[0].symptom) == k then 0
    else 1 + FirstRow(rows[1..], k)
  }

  /** A row appended after the first occurrence of `k` does not move it. */
  lemma FirstRowAppend(rows: seq<Entry>, x: Entry, k: String)
    ensures FirstRow(rows, k) < |rows| ==> FirstRow(rows + [x], k) == FirstRow(rows, k)
    ensures FirstRow(rows, k) == |rows| && Lower(x.symptom) == k ==> FirstRow(rows + [x], k) == |rows|
  {
    var n, m := FirstRow(rows, k), FirstRow(rows + [x], k);
    if n < |rows| {
      assert (rows + [x])[n] == rows[n];
    } else if Lower(x.symptom) == k {
      assert (rows + [x])[|rows|] == x;
    }
  }

  /** The keys of the dictionary come in the order in which their phrases first occur
      among the rows, as a Python dict keeps the first insertion of each key. */
  lemma {:induction false} BuildTableOrder(rows: seq<Entry>)
    ensures forall i :: 0 <= i < |BuildTable(rows)| ==> FirstRow(rows, BuildTable(rows)[i].symptom) < |rows|
    ensures forall i, j :: 0 <= i < j < |BuildTable(rows)| ==>
      FirstRow(rows, BuildTable(rows)[i].symptom) < FirstRow(rows, BuildTable(rows)[j].symptom)
  {
    if rows != [] {
      var pre, last := rows[..|rows| - 1], rows[|rows| - 1];
      assert rows == pre + [last];
      var before := BuildTable(pre);
      var k := Lower(last.symptom);
      var r := BuildTable(rows);
      assert r == Insert(before, k, last.risk);
      BuildTableOrder(pre);
      InsertShape(before, k, last.risk);
      forall i | 0 <= i < |before|
        ensures FirstRow(rows, before[i].symptom) == FirstRow(pre, before[i].symptom) < |pre|
      {
        FirstRowAppend(pre, last, before[i].symptom);
      }
      if k in Keys(before) {
        assert forall i :: 0 <= i < |r| ==> r[i].symptom == before[i].symptom;
      } else {
        assert Lookup(before, k) == None;
        assert FirstRow(pre, k) == |pre|;
        FirstRowAppend(pre, last, k);
        assert r == before + [Entry(k, last.risk)];
        assert forall i :: 0 <= i < |before| ==> r[i] == before[i];
      }
    }
  }

  /** The comprehension of app.py:76 on an already lowered text: the entries of the
      dictionary, in dictionary order, whose phrase occurs in `text`. */
  function MatchesIn(t: Table, text: String): (r: seq<Entry>)
    ensures forall e :: e in r <==> e in t && IsSubstring(e.symptom, text)
    ensures DistinctKeys(t) ==> DistinctKeys(r)
    ensures r == [] <==> forall i :: 0 <= i < |t| ==> !IsSubstring(t[i].symptom, text)
    ensures |r| <= |t|
  {
    if t == [] then []
    else
      var rest := MatchesIn(t[1..], text);
      assert forall i :: 1 <= i < |t| ==> t[i] == t[1..][i - 1];
      if IsSubstring(t[0].symptom, text) then
        assert DistinctKeys(t) ==> forall e :: e in rest ==> e.symptom != t[0].symptom;
        [t[0]] + rest
      else rest
  }

  /** One step of the comprehension: the first entry, if its phrase occurs, then the
      matches among the rest. */
  lemma MatchesInCons(t: Table, text: String)
    requires t != []
    ensures MatchesIn(t, text) ==
      (if IsSubstring(t[0].symptom, text) then [t[0]] else []) + MatchesIn(t[1..], text)
  {
    assert [] + MatchesIn(t[1..], text) == MatchesIn(t[1..], text);
  }

  /** The matches keep dictionary order: matching a dictionary split in two is matching
      each part and concatenating, so an entry never moves ahead of an earlier one. */
  lemma {:induction false} MatchesInAppend(t1: Table, t2: Table, text: String)
    ensures MatchesIn(t1 + t2, text) == MatchesIn(t1, text) + MatchesIn(t2, text)
  {
    if t1 != [] {
      var t := t1 + t2;
      assert t[0] == t1[0];
      assert t[1..] == t1[1..] + t2;
      MatchesInAppend(t1[1..], t2, text);
      MatchesInCons(t, text);
      MatchesInCons(t1, text);
      var head := if IsSubstring(t1[0].symptom, text) then [t1[0]] else [];
      var rest1, m2 := MatchesIn(t1[1..], text), MatchesIn(t2, text);
      assert head + (rest1 + m2) == (head + rest1) + m2;
    } else {
      assert t1 + t2 == t2;
    }
  }

  /** `riscos_identificados` for the raw input of the form (app.py:74-76): the input is
      stripped and lowered, then scanned for every dictionary phrase. */
  function Score(t: Table, input: String): (r: seq<Entry>)
    ensures forall e :: e in r <==> e in t && IsSubstring(e.symptom, Lower(Strip(input)))
  {
    MatchesIn(t, Lower(Strip(input)))
  }

  /** `max([r[1] for r in matches], default=0)` (app.py:78). */
  function HighestRisk(ms: seq<Entry>): (r: real)
    ensures ms == [] ==> r == 0.0
    ensures ms != [] ==> exists i :: 0 <= i < |ms| && r == ms[i].risk
    ensures forall i :: 0 <= i < |ms| ==> ms[i].risk <= r
  {
    if ms == [] then 0.0
    else if |ms| == 1 then ms[0].risk
    else
      var m := HighestRisk(ms[1..]);
      assert forall i :: 1 <= i < |ms| ==> ms[i] == ms[1..][i - 1];
      if ms[0].risk >= m then ms[0].risk else m
  }

  /** Changing the letter case of the input does not change what is matched. */
  lemma CaseInsensitive(t: Table, a: String, b: String)
    requires Lower(a) == Lower(b)
    ensures Score(t, a) == Score(t, b)
  {
    StripLowerCommute(a);
    StripLowerCommute(b);
  }

  /** A dictionary phrase written in the input in any letter case is matched. */
  lemma MatchedInAnyCase(t: Table, input: String, w: String, e: Entry)
    requires e in t
    requires Lower(w) == e.symptom
    requires IsSubstring(w, Strip(input))
    ensures e in Score(t, input)
  {
    var s := Strip(input);
    var i :| 0 <= i <= |s| - |w| && OccursAt(w, s, i);
    LowerSlice(s, i, i + |w|);
    assert OccursAt(e.symptom, Lower(s), i);
  }

  /** Nothing matched means a highest risk of 0. */
  lemma NoMatchNoRisk(t: Table, input: String)
    requires forall i :: 0 <= i < |t| ==> !IsSubstring(t[i].symptom, Lower(Strip(input)))
    ensures Score(t, input) == [] && HighestRisk(Score(t, input)) == 0.0
  {
  }
}
