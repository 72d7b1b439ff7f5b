/**
 * The normalizer node: company records whose names share a canonical key
 * are merged into one record, in order of first appearance of the key.
 */
module Normalizer {
  import opened Strings
  import opened Seqs
  import opened Types

  // ---------------------------------------------------------------- the merge key

  /** Characters the key keeps: `[\w\s&\-\.]`. */
  predicate KeyChar(c: char) {
    IsWordChar(c) || IsSpace(c) || c == '&' || c == '-' || c == '.'
  }

  /** Deletes every character outside `[\w\s&\-\.]`. */
  function RemoveDisallowed(s: string): (r: string)
    ensures |r| <= |s|
    ensures forall i :: 0 <= i < |r| ==> KeyChar(r[i])
    ensures (forall i :: 0 <= i < |s| ==> KeyChar(s[i])) ==> r == s
    decreases |s|
  {
    if s == [] then []
    else (if KeyChar(s[0]) then [s[0]] else []) + RemoveDisallowed(s[1..])
  }

  /** `_norm_key(name)`: lower-case, strip, delete disallowed characters, collapse whitespace. */
  function NormKey(name: string): string
  {
    Collapse(RemoveDisallowed(Strip(Lower(name))))
  }

  lemma RemoveDisallowedNoUpper(s: string)
    requires NoUpper(s)
    ensures NoUpper(RemoveDisallowed(s))
  {
    var p := (c: char) => !IsUpper(c);
    RemoveDisallowedKeeps(p, s);
  }

  lemma {:induction false} RemoveDisallowedKeeps(p: char -> bool, s: string)
    requires forall i :: 0 <= i < |s| ==> p(s[i])
    ensures forall i :: 0 <= i < |RemoveDisallowed(s)| ==> p(RemoveDisallowed(s)[i])
    decreases |s|
  {
    if s != [] {
      assert forall i :: 0 <= i < |s| - 1 ==> s[1..][i] == s[i + 1];
      RemoveDisallowedKeeps(p, s[1..]);
    }
  }

  /** A key is lower case and single-spaced, and has only word characters, ' ', '&', '-' and '.'. */
  lemma NormKeyShape(name: string)
    ensures var k := NormKey(name);
      NoUpper(k) && SingleSpaced(k) &&
      forall i :: 0 <= i < |k| ==> IsWordChar(k[i]) || k[i] == ' ' || k[i] == '&' || k[i] == '-' || k[i] == '.'
  {
    var s := Strip(Lower(name));
    var d := RemoveDisallowed(s);
    var k := Collapse(d);
    StripKeeps((c: char) => !IsUpper(c), Lower(name));
    RemoveDisallowedNoUpper(s);
    CollapseKeeps((c: char) => !IsUpper(c), d);
    CollapseKeeps(KeyChar, d);
    CollapseSingleSpacedResult(d);
    forall i | 0 <= i < |k| ensures IsWordChar(k[i]) || k[i] == ' ' || k[i] == '&' || k[i] == '-' || k[i] == '.' {
      assert KeyChar(k[i]);
    }
  }

  lemma TrimLeftSample()
    ensures TrimLeft("x") == "x" && TrimLeft(" x") == "x"
  {
    assert !IsSpace("x"[0]) && IsSpace(" x"[0]);
    assert " x"[1..] == "x";
    TrimLeftStep("x");
    TrimLeftStep(" x");
  }

  lemma CollapseSamples()
    ensures Collapse("x") == "x" && Collapse(" x") == " x"
  {
    assert !IsSpace("x"[0]) && IsSpace(" x"[0]);
    assert "x"[1..] == [] && " x"[1..] == "x";
    TrimLeftSample();
  }

  lemma StripSamples()
    ensures Strip("! x") == "! x" && Strip(" x") == "x"
  {
    assert !IsSpace("! x"[0]) && !IsSpace("! x"[2]);
    assert Trimmed("! x");
    TrimLeftSample();
    assert TrimRight("x") == "x" by {
      assert !IsSpace("x"[0]);
      TrimRightStep("x");
    }
  }

  lemma RemoveDisallowedSamples()
    ensures RemoveDisallowed("! x") == " x" && RemoveDisallowed("x") == "x"
  {
    assert KeyChar(' ') && KeyChar('x') && !KeyChar('!');
  }

  /** Keying is not idempotent: the strip runs before the deletion, which can expose a space. */
  lemma NormKeyNotIdempotent()
    ensures NormKey("! x") == " x"
    ensures NormKey(" x") == "x"
  {
    LowerNoUpper("! x");
    LowerNoUpper(" x");
    StripSamples();
    RemoveDisallowedSamples();
    CollapseSamples();
  }

  /** A lower-case, trimmed, single-spaced string of key characters is its own key. */
  lemma KeyFixed(k: string)
    requires NoUpper(k) && Trimmed(k) && SingleSpaced(k)
    requires forall i :: 0 <= i < |k| ==> KeyChar(k[i])
    ensures NormKey(k) == k
  {
    LowerNoUpper(k);
    assert Strip(k) == k;
    assert RemoveDisallowed(k) == k;
    CollapseSingleSpaced(k);
  }

  /** Re-keying a key that has no whitespace at its ends gives the key back. */
  lemma NormKeyStable(name: string)
    requires Trimmed(NormKey(name))
    ensures NormKey(NormKey(name)) == NormKey(name)
  {
    var k := NormKey(name);
    NormKeyShape(name);
    assert forall i :: 0 <= i < |k| ==> KeyChar(k[i]);
    KeyFixed(k);
  }

  // ---------------------------------------------------------------- merging

  /*
   * The merge is stated for any key function `key` on company names; the
   * node uses `NormKey`. Keeping the key abstract here keeps the grouping
   * proofs independent of how keys are computed.
   */

  /** The non-empty keys of the records, in record order. */
  function Keys(key: string -> string, recs: seq<CompanyRecord>): (ks: seq<string>)
    ensures forall i :: 0 <= i < |ks| ==> ks[i] != []
    decreases |recs|
  {
    if recs == [] then []
    else
      var k := key(recs[|recs| - 1].companyName);
      Keys(key, recs[..|recs| - 1]) + (if k == [] then [] else [k])
  }

  /** The records whose key is `k`, in input order. */
  function Members(key: string -> string, recs: seq<CompanyRecord>, k: string): (ms: seq<CompanyRecord>)
    ensures forall i :: 0 <= i < |ms| ==> key(ms[i].companyName) == k
    decreases |recs|
  {
    if recs == [] then []
    else
      var r := recs[|recs| - 1];
      Members(key, recs[..|recs| - 1], k) + (if key(r.companyName) == k then [r] else [])
  }

  function UnionSources(ms: seq<CompanyRecord>): set<string>
    decreases |ms|
  {
    if ms == [] then {} else UnionSources(ms[..|ms| - 1]) + ms[|ms| - 1].sources
  }

  function SumSpeakers(ms: seq<CompanyRecord>): int
    decreases |ms|
  {
    if ms == [] then 0 else SumSpeakers(ms[..|ms| - 1]) + ms[|ms| - 1].speakersCount
  }

  function ConcatEvidence(ms: seq<CompanyRecord>): seq<Evidence>
    decreases |ms|
  {
    if ms == [] then [] else ConcatEvidence(ms[..|ms| - 1]) + ms[|ms| - 1].evidence
  }

  /** The merge of a group: the first member's name, the union of the sources, the sum of the counts, all evidence in order. */
  function MergeGroup(ms: seq<CompanyRecord>): CompanyRecord
    requires ms != []
  {
    CompanyRecord(ms[0].companyName, UnionSources(ms), ConcatEvidence(ms), SumSpeakers(ms))
  }

  /** One merged record per distinct non-empty key, in order of first appearance. */
  function MergedBy(key: string -> string, recs: seq<CompanyRecord>): (out: seq<CompanyRecord>)
  {
    var ks := Distinct(Keys(key, recs));
    seq(|ks|, j requires 0 <= j < |ks| => (MembersNonEmpty(key, recs, ks[j]); MergeGroup(Members(key, recs, ks[j]))))
  }

  /** What `normalizer_node` leaves in `company_records`. */
  function Merged(recs: seq<CompanyRecord>): seq<CompanyRecord>
  {
    MergedBy(NormKey, recs)
  }

  lemma MembersSnoc(key: string -> string, recs: seq<CompanyRecord>, r: CompanyRecord, k: string)
    ensures key(r.companyName) == k ==> Members(key, recs + [r], k) == Members(key, recs, k) + [r]
    ensures key(r.companyName) != k ==> Members(key, recs + [r], k) == Members(key, recs, k)
  {
    assert (recs + [r])[..|recs|] == recs;
    assert Members(key, recs, k) + [] == Members(key, recs, k);
  }

  lemma KeysSnoc(key: string -> string, recs: seq<CompanyRecord>, r: CompanyRecord)
    ensures key(r.companyName) != [] ==> Keys(key, recs + [r]) == Keys(key, recs) + [key(r.companyName)]
    ensures key(r.companyName) == [] ==> Keys(key, recs + [r]) == Keys(key, recs)
  {
    assert (recs + [r])[..|recs|] == recs;
    assert Keys(key, recs) + [] == Keys(key, recs);
  }

  /** A key among the keys has at least one member. */
  lemma {:induction false} MembersNonEmpty(key: string -> string, recs: seq<CompanyRecord>, k: string)
    requires k in Keys(key, recs)
    ensures Members(key, recs, k) != []
    decreases |recs|
  {
    var init := recs[..|recs| - 1];
    var r := recs[|recs| - 1];
    assert recs == init + [r];
    KeysSnoc(key, init, r);
    MembersSnoc(key, init, r, k);
    if key(r.companyName) != k {
      MembersNonEmpty(key, init, k);
    }
  }

  /** A non-empty key that no record has has no members. */
  lemma {:induction false} MembersEmpty(key: string -> string, recs: seq<CompanyRecord>, k: string)
    requires k != [] && k !in Keys(key, recs)
    ensures Members(key, recs, k) == []
    decreases |recs|
  {
    if recs != [] {
      var init := recs[..|recs| - 1];
      var r := recs[|recs| - 1];
      assert recs == init + [r];
      KeysSnoc(key, init, r);
      MembersSnoc(key, init, r, k);
      MembersEmpty(key, init, k);
    }
  }

  /** The in-place update of a dictionary entry by one more record: sources joined, counts added, evidence appended. */
  function Absorb(t: CompanyRecord, r: CompanyRecord): CompanyRecord
  {
    t.(sources := t.sources + r.sources, speakersCount := t.speakersCount + r.speakersCount,
       evidence := t.evidence + r.evidence)
  }

  lemma MergeGroupSnoc(ms: seq<CompanyRecord>, r: CompanyRecord)
    requires ms != []
    ensures MergeGroup(ms + [r]) == Absorb(MergeGroup(ms), r)
  {
    assert (ms + [r])[..|ms|] == ms;
  }

  lemma MergeGroupSingle(r: CompanyRecord)
    ensures MergeGroup([r]) == Absorb(NewRecord(r.companyName), r)
  {
    assert [r][..0] == [];
    assert UnionSources([r]) == UnionSources([]) + r.sources;
    assert ConcatEvidence([r]) == ConcatEvidence([]) + r.evidence;
    assert SumSpeakers([r]) == SumSpeakers([]) + r.speakersCount;
  }

  /** The invariant of the merge loop after the records `pre`: `order` lists the keys of the dictionary in insertion order. */
  ghost predicate MergeInv(key: string -> string, pre: seq<CompanyRecord>, order: seq<string>, merged: map<string, CompanyRecord>) {
    order == Distinct(Keys(key, pre)) &&
    (forall k :: k in merged <==> k in order) &&
    (forall k :: k in merged ==> Members(key, pre, k) != [] && merged[k] == MergeGroup(Members(key, pre, k)))
  }

  lemma StepSkip(key: string -> string, pre: seq<CompanyRecord>, rec: CompanyRecord, order: seq<string>, merged: map<string, CompanyRecord>)
    requires MergeInv(key, pre, order, merged) && key(rec.companyName) == []
    ensures MergeInv(key, pre + [rec], order, merged)
  {
    KeysSnoc(key, pre, rec);
    forall k | k in merged ensures Members(key, pre + [rec], k) != [] && merged[k] == MergeGroup(Members(key, pre + [rec], k)) {
      StepOther(key, pre, rec, k, merged[k]);
    }
  }

  /** A key seen for the first time joins the end of the key order. */
  lemma StepNewOrder(key: string -> string, pre: seq<CompanyRecord>, rec: CompanyRecord, order: seq<string>)
    requires order == Distinct(Keys(key, pre))
    requires key(rec.companyName) != [] && key(rec.companyName) !in order
    ensures order + [key(rec.companyName)] == Distinct(Keys(key, pre + [rec]))
  {
    var k0 := key(rec.companyName);
    KeysSnoc(key, pre, rec);
    assert k0 !in Keys(key, pre);
    DistinctSnoc(Keys(key, pre), k0);
  }

  /** A key seen for the first time has the current record as its only member. */
  lemma StepNewMembers(key: string -> string, pre: seq<CompanyRecord>, rec: CompanyRecord)
    requires key(rec.companyName) != [] && key(rec.companyName) !in Keys(key, pre)
    ensures Members(key, pre + [rec], key(rec.companyName)) == [rec]
  {
    MembersEmpty(key, pre, key(rec.companyName));
    MembersSnoc(key, pre, rec, key(rec.companyName));
  }

  lemma StepNew(key: string -> string, pre: seq<CompanyRecord>, rec: CompanyRecord, order: seq<string>, merged: map<string, CompanyRecord>)
    requires MergeInv(key, pre, order, merged)
    requires key(rec.companyName) != [] && key(rec.companyName) !in merged
    ensures MergeInv(key, pre + [rec], order + [key(rec.companyName)],
                     merged[key(rec.companyName) := Absorb(NewRecord(rec.companyName), rec)])
  {
    var k0 := key(rec.companyName);
    StepNewOrder(key, pre, rec, order);
    assert k0 !in Keys(key, pre);
    StepNewEntries(key, pre, rec, merged);
  }

  /** The entries of the dictionary after a new key is inserted. */
  lemma StepNewEntries(key: string -> string, pre: seq<CompanyRecord>, rec: CompanyRecord, merged: map<string, CompanyRecord>)
    requires forall k :: k in merged ==> Members(key, pre, k) != [] && merged[k] == MergeGroup(Members(key, pre, k))
    requires key(rec.companyName) != [] && key(rec.companyName) !in Keys(key, pre)
    ensures var m := merged[key(rec.companyName) := Absorb(NewRecord(rec.companyName), rec)];
      forall k :: k in m ==> Members(key, pre + [rec], k) != [] && m[k] == MergeGroup(Members(key, pre + [rec], k))
  {
    var k0 := key(rec.companyName);
    var m := merged[k0 := Absorb(NewRecord(rec.companyName), rec)];
    StepNewMembers(key, pre, rec);
    MergeGroupSingle(rec);
    forall k | k in m ensures Members(key, pre + [rec], k) != [] && m[k] == MergeGroup(Members(key, pre + [rec], k)) {
      if k != k0 {
        StepOther(key, pre, rec, k, merged[k]);
      }
    }
  }

  /** A key other than the current record's keeps its members and its merged record. */
  lemma StepOther(key: string -> string, pre: seq<CompanyRecord>, rec: CompanyRecord, k: string, mk: CompanyRecord)
    requires Members(key, pre, k) != [] && mk == MergeGroup(Members(key, pre, k))
    requires key(rec.companyName) != k
    ensures Members(key, pre + [rec], k) != [] && mk == MergeGroup(Members(key, pre + [rec], k))
  {
    MembersSnoc(key, pre, rec, k);
  }

  lemma StepOld(key: string -> string, pre: seq<CompanyRecord>, rec: CompanyRecord, order: seq<string>, merged: map<string, CompanyRecord>)
    requires MergeInv(key, pre, order, merged)
    requires key(rec.companyName) in merged
    ensures MergeInv(key, pre + [rec], order,
                     merged[key(rec.companyName) := Absorb(merged[key(rec.companyName)], rec)])
  {
    var k0 := key(rec.companyName);
    var t := merged[k0];
    MergeGroupSnoc(Members(key, pre, k0), rec);
    var m := merged[k0 := Absorb(t, rec)];
    assert m[k0] == MergeGroup(Members(key, pre, k0) + [rec]);
    assert order == Distinct(Keys(key, pre + [rec])) by {
      KeysSnoc(key, pre, rec);
      DistinctSnoc(Keys(key, pre), k0);
      assert k0 in order;
      assert k0 in Keys(key, pre);
    }
    forall k | k in m ensures Members(key, pre + [rec], k) != [] && m[k] == MergeGroup(Members(key, pre + [rec], k)) {
      if k == k0 {
        MembersSnoc(key, pre, rec, k0);
      } else {
        StepOther(key, pre, rec, k, merged[k]);
      }
    }
  }

  /** `list(merged.values())` once every record has been merged: the dictionary's values in insertion order. */
  method DictValues(ghost key: string -> string, ghost recs: seq<CompanyRecord>, order: seq<string>,
                    merged: map<string, CompanyRecord>) returns (out: seq<CompanyRecord>)
    requires MergeInv(key, recs, order, merged)
    ensures out == MergedBy(key, recs)
  {
    out := seq(|order|, j requires 0 <= j < |order| => merged[order[j]]);
  }

  /** One pass of the loop body of `normalizer_node`: `merged[key]` is created on first sight, then updated in place. */
  method MergeOne(key: string -> string, ghost pre: seq<CompanyRecord>, rec: CompanyRecord,
                  order: seq<string>, merged: map<string, CompanyRecord>)
    returns (order': seq<string>, merged': map<string, CompanyRecord>)
    requires MergeInv(key, pre, order, merged)
    ensures MergeInv(key, pre + [rec], order', merged')
  {
    var k := key(rec.companyName);
    if k == [] {
      StepSkip(key, pre, rec, order, merged);
      return order, merged;
    }
    var t: CompanyRecord;
    if k in merged {
      t := merged[k];
      StepOld(key, pre, rec, order, merged);
      order' := order;
    } else {
      t := NewRecord(rec.companyName);
      StepNew(key, pre, rec, order, merged);
      order' := order + [k];
    }
    merged' := merged[k := Absorb(t, rec)];
  }

  /** The loop of `normalizer_node` for a given key function: fills an insertion-ordered dictionary of merged records. */
  method MergeByKey(key: string -> string, recs: seq<CompanyRecord>) returns (out: seq<CompanyRecord>)
    ensures out == MergedBy(key, recs)
  {
    var order: seq<string> := [];
    var merged: map<string, CompanyRecord> := map[];
    ghost var seen: seq<CompanyRecord> := [];
    var i := 0;
    while i < |recs|
      invariant 0 <= i <= |recs| && seen == recs[..i]
      invariant MergeInv(key, seen, order, merged)
    {
      var rec := recs[i];
      order, merged := MergeOne(key, seen, rec, order, merged);
      assert recs[..i + 1] == seen + [rec];
      seen := seen + [rec];
      i := i + 1;
    }
    assert seen == recs;
    out := DictValues(key, recs, order, merged);
  }

  /** `normalizer_node`: replaces `company_records` by their merge under `_norm_key`. */
  method NormalizerNode(state: GraphState)
    modifies state`companyRecords
    ensures state.companyRecords == Merged(old(state.companyRecords))
  {
    var out := MergeByKey(NormKey, state.companyRecords);
    state.companyRecords := out;
  }

  // ---------------------------------------------------------------- properties of the merge

  /** Each merged record is the merge of the records with one key, named after the first of them, so it keeps that key. */
  lemma MergedKey(key: string -> string, recs: seq<CompanyRecord>, j: int)
    requires 0 <= j < |MergedBy(key, recs)|
    ensures key(MergedBy(key, recs)[j].companyName) == Distinct(Keys(key, recs))[j]
    ensures Members(key, recs, Distinct(Keys(key, recs))[j]) != [] &&
      MergedBy(key, recs)[j] == MergeGroup(Members(key, recs, Distinct(Keys(key, recs))[j]))
  {
    var k := Distinct(Keys(key, recs))[j];
    MembersNonEmpty(key, recs, k);
  }

  /** The merged records have pairwise distinct, non-empty keys. */
  lemma MergedKeysDistinct(key: string -> string, recs: seq<CompanyRecord>, i: int, j: int)
    requires 0 <= i < j < |MergedBy(key, recs)|
    ensures key(MergedBy(key, recs)[i].companyName) != key(MergedBy(key, recs)[j].companyName)
    ensures key(MergedBy(key, recs)[i].companyName) != []
  {
    MergedKey(key, recs, i);
    MergedKey(key, recs, j);
    var ks := Keys(key, recs);
    assert Distinct(ks)[i] in ks;
  }

  /** Every record with a non-empty key belongs to the group of exactly one merged record. */
  lemma MergedCovers(key: string -> string, recs: seq<CompanyRecord>, i: int)
    requires 0 <= i < |recs| && key(recs[i].companyName) != []
    ensures recs[i] in Members(key, recs, key(recs[i].companyName))
    ensures exists j :: 0 <= j < |MergedBy(key, recs)| && key(MergedBy(key, recs)[j].companyName) == key(recs[i].companyName)
  {
    var k := key(recs[i].companyName);
    MemberIn(key, recs, i);
    var d := Distinct(Keys(key, recs));
    assert k in d;
    var j := IndexOf(d, k);
    MergedKey(key, recs, j);
  }

  lemma {:induction false} MemberIn(key: string -> string, recs: seq<CompanyRecord>, i: int)
    requires 0 <= i < |recs| && key(recs[i].companyName) != []
    ensures key(recs[i].companyName) in Keys(key, recs)
    ensures recs[i] in Members(key, recs, key(recs[i].companyName))
    decreases |recs|
  {
    var init := recs[..|recs| - 1];
    var r := recs[|recs| - 1];
    assert recs == init + [r];
    KeysSnoc(key, init, r);
    MembersSnoc(key, init, r, key(recs[i].companyName));
    if i < |init| {
      assert init[i] == recs[i];
      MemberIn(key, init, i);
    }
  }

  /** The merged records come in the order in which their keys first appear. */
  lemma MergedOrder(key: string -> string, recs: seq<CompanyRecord>, i: int, j: int)
    requires 0 <= i < j < |MergedBy(key, recs)|
    ensures key(MergedBy(key, recs)[i].companyName) in Keys(key, recs) &&
            key(MergedBy(key, recs)[j].companyName) in Keys(key, recs) &&
            IndexOf(Keys(key, recs), key(MergedBy(key, recs)[i].companyName)) <
            IndexOf(Keys(key, recs), key(MergedBy(key, recs)[j].companyName))
  {
    MergedKey(key, recs, i);
    MergedKey(key, recs, j);
    DistinctFirstOccurrence(Keys(key, recs), i, j);
  }

  /** Every member of a group is one of the input records. */
  lemma {:induction false} MembersIn(key: string -> string, recs: seq<CompanyRecord>, k: string, i: int)
    requires 0 <= i < |Members(key, recs, k)|
    ensures Members(key, recs, k)[i] in recs
    decreases |recs|
  {
    var init := recs[..|recs| - 1];
    var r := recs[|recs| - 1];
    assert recs == init + [r];
    MembersSnoc(key, init, r, k);
    if i < |Members(key, init, k)| {
      MembersIn(key, init, k, i);
    }
  }

  /** A group has as many members as its key has occurrences among the keys. */
  lemma {:induction false} MembersCount(key: string -> string, recs: seq<CompanyRecord>, k: string)
    requires k != []
    ensures |Members(key, recs, k)| == Count(Keys(key, recs), k)
    decreases |recs|
  {
    if recs != [] {
      var init := recs[..|recs| - 1];
      var r := recs[|recs| - 1];
      assert recs == init + [r];
      MembersSnoc(key, init, r, k);
      KeysSnoc(key, init, r);
      MembersCount(key, init, k);
      if key(r.companyName) != [] {
        CountSnoc(Keys(key, init), key(r.companyName), k);
      }
    }
  }

  // ---------------------------------------------------------------- the speaker total

  /** The records whose key is not empty: the ones the merge keeps. */
  function Kept(key: string -> string, recs: seq<CompanyRecord>): (ks: seq<CompanyRecord>)
    ensures |ks| <= |recs|
    decreases |recs|
  {
    if recs == [] then []
    else
      var r := recs[|recs| - 1];
      Kept(key, recs[..|recs| - 1]) + (if key(r.companyName) == [] then [] else [r])
  }

  /** The speakers of the groups of the keys `ks`, added up. */
  function GroupSpeakers(key: string -> string, recs: seq<CompanyRecord>, ks: seq<string>): int
    decreases |ks|
  {
    if ks == [] then 0
    else GroupSpeakers(key, recs, ks[..|ks| - 1]) + SumSpeakers(Members(key, recs, ks[|ks| - 1]))
  }

  lemma SumSpeakersSnoc(ms: seq<CompanyRecord>, r: CompanyRecord)
    ensures SumSpeakers(ms + [r]) == SumSpeakers(ms) + r.speakersCount
  {
    assert (ms + [r])[..|ms|] == ms;
  }

  lemma GroupSpeakersAppend(key: string -> string, recs: seq<CompanyRecord>, ks: seq<string>, k: string)
    ensures GroupSpeakers(key, recs, ks + [k]) == GroupSpeakers(key, recs, ks) + SumSpeakers(Members(key, recs, k))
  {
    assert (ks + [k])[..|ks|] == ks;
  }

  /** One more record adds its speakers to the total of the keys once, if its key is among them. */
  lemma {:induction false} GroupSpeakersSnoc(key: string -> string, recs: seq<CompanyRecord>, r: CompanyRecord, ks: seq<string>)
    requires NoDup(ks)
    ensures GroupSpeakers(key, recs + [r], ks) ==
      GroupSpeakers(key, recs, ks) + (if key(r.companyName) in ks then r.speakersCount else 0)
    decreases |ks|
  {
    if ks != [] {
      var init := ks[..|ks| - 1];
      var k := ks[|ks| - 1];
      assert ks == init + [k];
      assert NoDup(init) by {
        forall i, j | 0 <= i < j < |init| ensures init[i] != init[j] { assert init[i] == ks[i] && init[j] == ks[j]; }
      }
      assert k !in init by {
        forall j | 0 <= j < |init| ensures init[j] != k { assert init[j] == ks[j]; }
      }
      GroupSpeakersSnoc(key, recs, r, init);
      MembersSnoc(key, recs, r, k);
      if key(r.companyName) == k {
        SumSpeakersSnoc(Members(key, recs, k), r);
      }
    }
  }

  lemma KeptSnoc(key: string -> string, recs: seq<CompanyRecord>, r: CompanyRecord)
    ensures key(r.companyName) != [] ==> Kept(key, recs + [r]) == Kept(key, recs) + [r]
    ensures key(r.companyName) == [] ==> Kept(key, recs + [r]) == Kept(key, recs)
  {
    assert (recs + [r])[..|recs|] == recs;
    assert Kept(key, recs) + [] == Kept(key, recs);
  }

  /** The induction step of `GroupSpeakersDistinct`. */
  lemma GroupSpeakersDistinctSnoc(key: string -> string, init: seq<CompanyRecord>, r: CompanyRecord)
    requires GroupSpeakers(key, init, Distinct(Keys(key, init))) == SumSpeakers(Kept(key, init))
    ensures GroupSpeakers(key, init + [r], Distinct(Keys(key, init + [r]))) == SumSpeakers(Kept(key, init + [r]))
  {
    var k0 := key(r.companyName);
    if k0 == [] {
      SkippedKeySnoc(key, init, r);
    } else if k0 in Distinct(Keys(key, init)) {
      KnownKeySnoc(key, init, r);
    } else {
      NewKeySnoc(key, init, r);
    }
  }

  /** A record with an empty key changes neither the groups nor the kept records. */
  lemma SkippedKeySnoc(key: string -> string, init: seq<CompanyRecord>, r: CompanyRecord)
    requires GroupSpeakers(key, init, Distinct(Keys(key, init))) == SumSpeakers(Kept(key, init))
    requires key(r.companyName) == []
    ensures GroupSpeakers(key, init + [r], Distinct(Keys(key, init + [r]))) == SumSpeakers(Kept(key, init + [r]))
  {
    var d := Distinct(Keys(key, init));
    assert key(r.companyName) !in d;
    GroupSpeakersSnoc(key, init, r, d);
    KeptSnoc(key, init, r);
    KeysSnoc(key, init, r);
  }

  /** A record with a key seen before adds its speakers to that key's group. */
  lemma KnownKeySnoc(key: string -> string, init: seq<CompanyRecord>, r: CompanyRecord)
    requires GroupSpeakers(key, init, Distinct(Keys(key, init))) == SumSpeakers(Kept(key, init))
    requires key(r.companyName) != [] && key(r.companyName) in Distinct(Keys(key, init))
    ensures GroupSpeakers(key, init + [r], Distinct(Keys(key, init + [r]))) == SumSpeakers(Kept(key, init + [r]))
  {
    var k0 := key(r.companyName);
    var d := Distinct(Keys(key, init));
    KeysSnoc(key, init, r);
    assert k0 in Keys(key, init);
    DistinctSnoc(Keys(key, init), k0);
    assert Distinct(Keys(key, init + [r])) == d;
    GroupSpeakersSnoc(key, init, r, d);
    KeptSnoc(key, init, r);
    SumSpeakersSnoc(Kept(key, init), r);
  }

  /** A record with a new key adds a group of its own. */
  lemma NewKeySnoc(key: string -> string, init: seq<CompanyRecord>, r: CompanyRecord)
    requires GroupSpeakers(key, init, Distinct(Keys(key, init))) == SumSpeakers(Kept(key, init))
    requires key(r.companyName) != [] && key(r.companyName) !in Distinct(Keys(key, init))
    ensures GroupSpeakers(key, init + [r], Distinct(Keys(key, init + [r]))) == SumSpeakers(Kept(key, init + [r]))
  {
    var d := Distinct(Keys(key, init));
    GroupSpeakersSnoc(key, init, r, d);
    KeptSnoc(key, init, r);
    KeysSnoc(key, init, r);
    DistinctSnoc(Keys(key, init), key(r.companyName));
    SumSpeakersSnoc(Kept(key, init), r);
    GroupSpeakersNewKey(key, init, r, d);
  }

  /** A record with a key not seen before adds a group of its own. */
  lemma GroupSpeakersNewKey(key: string -> string, init: seq<CompanyRecord>, r: CompanyRecord, d: seq<string>)
    requires key(r.companyName) != [] && key(r.companyName) !in Keys(key, init)
    ensures GroupSpeakers(key, init + [r], d + [key(r.companyName)]) ==
      GroupSpeakers(key, init + [r], d) + r.speakersCount
  {
    var k0 := key(r.companyName);
    GroupSpeakersAppend(key, init + [r], d, k0);
    MembersEmpty(key, init, k0);
    MembersSnoc(key, init, r, k0);
    assert Members(key, init + [r], k0) == [r];
    assert SumSpeakers([r]) == SumSpeakers([r][..0]) + r.speakersCount;
  }

  /** Over all distinct keys, the groups' speakers add up to the speakers of the kept records. */
  lemma {:induction false} GroupSpeakersDistinct(key: string -> string, recs: seq<CompanyRecord>)
    ensures GroupSpeakers(key, recs, Distinct(Keys(key, recs))) == SumSpeakers(Kept(key, recs))
    decreases |recs|
  {
    if recs != [] {
      var init := recs[..|recs| - 1];
      GroupSpeakersDistinct(key, init);
      GroupSpeakersDistinctSnoc(key, init, recs[|recs| - 1]);
      assert recs == init + [recs[|recs| - 1]];
    }
  }

  /** The first `n` records of a sequence that carries one group per key carry the speakers of the first `n` groups. */
  lemma {:induction false} SpeakersPrefix(key: string -> string, recs: seq<CompanyRecord>, d: seq<string>,
                                          out: seq<CompanyRecord>, n: int)
    requires |out| == |d| && 0 <= n <= |out|
    requires forall j :: 0 <= j < |out| ==> out[j].speakersCount == SumSpeakers(Members(key, recs, d[j]))
    ensures SumSpeakers(out[..n]) == GroupSpeakers(key, recs, d[..n])
    decreases n
  {
    if n > 0 {
      SpeakersPrefix(key, recs, d, out, n - 1);
      TakeSnoc(out, n);
      SumSpeakersSnoc(out[..n - 1], out[n - 1]);
      TakeSnoc(d, n);
      GroupSpeakersAppend(key, recs, d[..n - 1], d[n - 1]);
    }
  }

  /** Merging keeps the total number of speakers of the records it keeps. */
  lemma MergedSpeakers(key: string -> string, recs: seq<CompanyRecord>)
    ensures SumSpeakers(MergedBy(key, recs)) == SumSpeakers(Kept(key, recs))
  {
    var out := MergedBy(key, recs);
    var d := Distinct(Keys(key, recs));
    forall j | 0 <= j < |out| ensures out[j].speakersCount == SumSpeakers(Members(key, recs, d[j])) {
      MergedKey(key, recs, j);
    }
    SpeakersPrefix(key, recs, d, out, |out|);
    assert out[..|out|] == out;
    assert d[..|out|] == d;
    GroupSpeakersDistinct(key, recs);
  }
}
