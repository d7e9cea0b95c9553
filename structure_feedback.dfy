/** The "Mini-Feedback" on the decision screen: a fixed table of keywords,
    each standing for one building block of a legal argument, is searched for
    in the lower-cased reasoning text. The blocks whose keyword occurs are
    reported as found, the others as missing, both in table order. The
    feedback is advisory: it never blocks saving or navigation. */
module StructureFeedback {
  import opened Wrappers
  import opened Text

  /** One entry of the keyword table: the keyword searched for and the label
      of the building block it stands for. */
  type Hit = (string, string)

  /** The table `hits` of the decision screen, in its dictionary order. */
  const Hits: seq<Hit> := [
    ("zuständ", "Zuständigkeit"),
    ("grundrecht", "Grundrechte"),
    ("neutral", "Neutralitätsgebot"),
    ("verhältnis", "Verhältnismäßigkeit"),
    ("bildungsauftrag", "Bildungsauftrag/Demokratie")
  ]

  /** What the feedback box shows for a non-blank reasoning. */
  datatype Report = Report(found: seq<string>, missing: seq<string>)

  /** No label appears twice in the table. */
  ghost predicate DistinctLabels(hits: seq<Hit>) {
    forall i, j :: 0 <= i < j < |hits| ==> hits[i].1 != hits[j].1
  }

  /** `hits.values()`: the labels in table order. */
  function Labels(hits: seq<Hit>): (ls: seq<string>)
    ensures |ls| == |hits|
    ensures forall i :: 0 <= i < |hits| ==> ls[i] == hits[i].1
  {
    if hits == [] then [] else [hits[0].1] + Labels(hits[1..])
  }

  /** `[label for key, label in hits.items() if key in text]`. */
  function Found(hits: seq<Hit>, text: string): (r: seq<string>)
    ensures |r| <= |hits|
    ensures forall l :: l in r ==> l in Labels(hits)
    ensures (forall i :: 0 <= i < |hits| ==> Contains(hits[i].0, text)) ==> r == Labels(hits)
  {
    if hits == [] then []
    else (if Contains(hits[0].0, text) then [hits[0].1] else []) + Found(hits[1..], text)
  }

  /** `[label for label in labels if label not in found]`. */
  function Missing(labels: seq<string>, found: seq<string>): (r: seq<string>)
    ensures |r| <= |labels|
    ensures forall l :: l in r <==> l in labels && l !in found
  {
    if labels == [] then []
    else (if labels[0] in found then [] else [labels[0]]) + Missing(labels[1..], found)
  }

  /** Reference definition of the missing blocks, independent of `found`:
      the labels, in table order, whose keyword does not occur in `text`. */
  function Unmatched(hits: seq<Hit>, text: string): (r: seq<string>)
    ensures |r| <= |hits|
    ensures forall l :: l in r ==> l in Labels(hits)
    ensures (forall i :: 0 <= i < |hits| ==> !Contains(hits[i].0, text)) ==> r == Labels(hits)
  {
    if hits == [] then []
    else (if Contains(hits[0].0, text) then [] else [hits[0].1]) + Unmatched(hits[1..], text)
  }

  /** `a` is `b` with some elements left out, the rest kept in order. */
  predicate IsSubsequence(a: seq<string>, b: seq<string>) {
    if b == [] then a == []
    else (a != [] && a[0] == b[0] && IsSubsequence(a[1..], b[1..])) || IsSubsequence(a, b[1..])
  }

  /** The feedback of the decision screen for the reasoning text: nothing
      (a prompt to write something) when the text is blank after stripping,
      otherwise the found and missing building blocks of the lower-cased
      text. */
  function Feedback(reasoning: string): (r: Option<Report>)
    ensures r.None? <==> forall k :: 0 <= k < |reasoning| ==> IsSpace(reasoning[k])
  {
    if Strip(reasoning) == [] then None
    else
      var text := Lower(reasoning);
      var found := Found(Hits, text);
      Some(Report(found, Missing(Labels(Hits), found)))
  }

  /** The "all building blocks present" message is shown instead of the
      warning listing the missing ones. */
  predicate AllPresent(r: Report) {
    r.missing == []
  }

  // ---------------------------------------------------------------------
  // Lemmas about an arbitrary table

  /** A label is found exactly when it is the label of a table entry whose
      keyword occurs in the text. */
  lemma {:induction false} FoundMembership(hits: seq<Hit>, text: string, l: string)
    ensures l in Found(hits, text) <==> exists i :: 0 <= i < |hits| && hits[i].1 == l && Contains(hits[i].0, text)
  {
    if hits != [] {
      FoundMembership(hits[1..], text, l);
      if l in Found(hits[1..], text) {
        var i :| 0 <= i < |hits[1..]| && hits[1..][i].1 == l && Contains(hits[1..][i].0, text);
        assert hits[i + 1] == hits[1..][i];
      }
      if exists i :: 0 <= i < |hits| && hits[i].1 == l && Contains(hits[i].0, text) {
        var i :| 0 <= i < |hits| && hits[i].1 == l && Contains(hits[i].0, text);
        if i > 0 {
          assert hits[1..][i - 1] == hits[i];
        }
      }
    }
  }

  /** The same, for the reference definition of the missing labels. */
  lemma {:induction false} UnmatchedMembership(hits: seq<Hit>, text: string, l: string)
    ensures l in Unmatched(hits, text) <==> exists i :: 0 <= i < |hits| && hits[i].1 == l && !Contains(hits[i].0, text)
  {
    if hits != [] {
      UnmatchedMembership(hits[1..], text, l);
      if l in Unmatched(hits[1..], text) {
        var i :| 0 <= i < |hits[1..]| && hits[1..][i].1 == l && !Contains(hits[1..][i].0, text);
        assert hits[i + 1] == hits[1..][i];
      }
      if exists i :: 0 <= i < |hits| && hits[i].1 == l && !Contains(hits[i].0, text) {
        var i :| 0 <= i < |hits| && hits[i].1 == l && !Contains(hits[i].0, text);
        if i > 0 {
          assert hits[1..][i - 1] == hits[i];
        }
      }
    }
  }

  /** Found and the reference missing list keep the table order: both are
      subsequences of the labels, and together they account for every entry. */
  lemma {:induction false} PartitionShape(hits: seq<Hit>, text: string)
    ensures IsSubsequence(Found(hits, text), Labels(hits))
    ensures IsSubsequence(Unmatched(hits, text), Labels(hits))
    ensures |Found(hits, text)| + |Unmatched(hits, text)| == |hits|
  {
    if hits != [] {
      PartitionShape(hits[1..], text);
      var ls := Labels(hits);
      assert ls[0] == hits[0].1 && ls[1..] == Labels(hits[1..]);
      var f, u := Found(hits[1..], text), Unmatched(hits[1..], text);
      if Contains(hits[0].0, text) {
        assert Found(hits, text) == [ls[0]] + f && ([ls[0]] + f)[1..] == f;
        assert Unmatched(hits, text) == u;
      } else {
        assert Unmatched(hits, text) == [ls[0]] + u && ([ls[0]] + u)[1..] == u;
        assert Found(hits, text) == f;
      }
    }
  }

  /** Missing only asks whether each label is in `found`; two lists that
      agree on that for every label give the same result. */
  lemma {:induction false} MissingCongruent(labels: seq<string>, f1: seq<string>, f2: seq<string>)
    requires forall l :: l in labels ==> (l in f1 <==> l in f2)
    ensures Missing(labels, f1) == Missing(labels, f2)
  {
    if labels != [] {
      MissingCongruent(labels[1..], f1, f2);
    }
  }

  /** With distinct labels, the app's complement `missing` is exactly the
      labels whose keyword does not occur, in table order. */
  lemma {:induction false} MissingIsUnmatched(hits: seq<Hit>, text: string)
    requires DistinctLabels(hits)
    ensures Missing(Labels(hits), Found(hits, text)) == Unmatched(hits, text)
  {
    if hits != [] {
      var h, rest := hits[0], hits[1..];
      assert DistinctLabels(rest) by {
        forall i, j | 0 <= i < j < |rest| ensures rest[i].1 != rest[j].1 {
          assert rest[i] == hits[i + 1] && rest[j] == hits[j + 1];
        }
      }
      MissingIsUnmatched(rest, text);
      var f := Found(hits, text);
      var fr := Found(rest, text);
      assert h.1 !in fr by {
        FoundMembership(rest, text, h.1);
      }
      assert h.1 in f <==> Contains(h.0, text);
      assert Labels(hits)[1..] == Labels(rest);
      forall l | l in Labels(rest) ensures l in f <==> l in fr {
        var i :| 0 <= i < |rest| && Labels(rest)[i] == l;
        assert hits[i + 1] == rest[i];
      }
      MissingCongruent(Labels(rest), f, fr);
    }
  }

  /** Nothing is missing exactly when every keyword occurs. */
  lemma {:induction false} UnmatchedEmptyIff(hits: seq<Hit>, text: string)
    ensures Unmatched(hits, text) == [] <==> forall i :: 0 <= i < |hits| ==> Contains(hits[i].0, text)
  {
    if hits != [] {
      UnmatchedEmptyIff(hits[1..], text);
      if forall i :: 0 <= i < |hits[1..]| ==> Contains(hits[1..][i].0, text) {
        forall i | 1 <= i < |hits| ensures Contains(hits[i].0, text) {
          assert hits[i] == hits[1..][i - 1];
        }
      }
    }
  }

  /** For any table with distinct labels: a label is found exactly when its
      keyword occurs in the text and missing exactly when it does not; found
      and missing are disjoint, hold only labels of the table, together count
      every entry once, keep the table order, and missing is empty exactly
      when every keyword occurs. */
  lemma Partition(hits: seq<Hit>, text: string)
    requires DistinctLabels(hits)
    ensures var found := Found(hits, text);
      var missing := Missing(Labels(hits), found);
      && (forall i :: 0 <= i < |hits| ==> (hits[i].1 in found <==> Contains(hits[i].0, text)))
      && (forall i :: 0 <= i < |hits| ==> (hits[i].1 in missing <==> !Contains(hits[i].0, text)))
      && (forall l :: l in found ==> l in Labels(hits) && l !in missing)
      && (forall l :: l in missing ==> l in Labels(hits) && l !in found)
      && |found| + |missing| == |hits|
      && IsSubsequence(found, Labels(hits))
      && IsSubsequence(missing, Labels(hits))
      && (missing == [] <==> forall i :: 0 <= i < |hits| ==> Contains(hits[i].0, text))
  {
    var found := Found(hits, text);
    MissingIsUnmatched(hits, text);
    var missing := Unmatched(hits, text);
    PartitionShape(hits, text);
    UnmatchedEmptyIff(hits, text);
    forall i | 0 <= i < |hits|
      ensures hits[i].1 in found <==> Contains(hits[i].0, text)
      ensures hits[i].1 in missing <==> !Contains(hits[i].0, text)
    {
      FoundMembership(hits, text, hits[i].1);
      UnmatchedMembership(hits, text, hits[i].1);
    }
    forall l | l in found ensures l in Labels(hits) && l !in missing {
      FoundMembership(hits, text, l);
      UnmatchedMembership(hits, text, l);
    }
    forall l | l in missing ensures l in Labels(hits) && l !in found {
      FoundMembership(hits, text, l);
      UnmatchedMembership(hits, text, l);
    }
  }

  // ---------------------------------------------------------------------
  // The keyword table of the decision screen

  /** The five labels of the table are distinct. */
  lemma HitsDistinct()
    ensures DistinctLabels(Hits)
  {
  }

  /** For a non-blank reasoning the partition above holds of the five
      building blocks and the lower-cased text; "all present" is shown
      exactly when every keyword occurs. */
  lemma FeedbackPartition(reasoning: string)
    requires Strip(reasoning) != []
    ensures var r := Feedback(reasoning).value;
      var text := Lower(reasoning);
      && (forall i :: 0 <= i < |Hits| ==> (Hits[i].1 in r.found <==> Contains(Hits[i].0, text)))
      && (forall i :: 0 <= i < |Hits| ==> (Hits[i].1 in r.missing <==> !Contains(Hits[i].0, text)))
      && (forall l :: l in r.found ==> l in Labels(Hits) && l !in r.missing)
      && (forall l :: l in r.missing ==> l in Labels(Hits) && l !in r.found)
      && |r.found| + |r.missing| == |Hits|
      && IsSubsequence(r.found, Labels(Hits))
      && IsSubsequence(r.missing, Labels(Hits))
      && (AllPresent(r) <==> forall i :: 0 <= i < |Hits| ==> Contains(Hits[i].0, text))
  {
    HitsDistinct();
    Partition(Hits, Lower(reasoning));
  }

  /** A text that mentions competence and proportionality but none of the
      other three keywords gets exactly those two blocks as found and the
      other three as missing. */
  lemma CompetenceAndProportionality(reasoning: string)
    requires Strip(reasoning) != []
    requires Contains("zuständ", Lower(reasoning)) && Contains("verhältnis", Lower(reasoning))
    requires !Contains("grundrecht", Lower(reasoning)) && !Contains("neutral", Lower(reasoning))
    requires !Contains("bildungsauftrag", Lower(reasoning))
    ensures Feedback(reasoning).value.found == ["Zuständigkeit", "Verhältnismäßigkeit"]
    ensures Feedback(reasoning).value.missing == ["Grundrechte", "Neutralitätsgebot", "Bildungsauftrag/Demokratie"]
  {
    var text := Lower(reasoning);
    HitsDistinct();
    MissingIsUnmatched(Hits, text);
    FirstAndFourthOnly(Hits, text);
  }

  /** In a five-entry table, a text containing exactly the first and the
      fourth keyword finds those two labels and misses the other three, in
      table order. */
  lemma FirstAndFourthOnly(hits: seq<Hit>, text: string)
    requires |hits| == 5
    requires Contains(hits[0].0, text) && Contains(hits[3].0, text)
    requires !Contains(hits[1].0, text) && !Contains(hits[2].0, text) && !Contains(hits[4].0, text)
    ensures Found(hits, text) == [hits[0].1, hits[3].1]
    ensures Unmatched(hits, text) == [hits[1].1, hits[2].1, hits[4].1]
  {
    var t4, t3, t2, t1 := hits[4..], hits[3..], hits[2..], hits[1..];
    assert t4 == [hits[4]] && t4[1..] == [];
    assert t3[0] == hits[3] && t3[1..] == t4;
    assert t2[0] == hits[2] && t2[1..] == t3;
    assert t1[0] == hits[1] && t1[1..] == t2;
    assert hits[1..] == t1;
    assert Found(t4, text) == [] && Unmatched(t4, text) == [hits[4].1];
    assert Found(t3, text) == [hits[3].1] && Unmatched(t3, text) == [hits[4].1];
    assert Found(t2, text) == [hits[3].1] && Unmatched(t2, text) == [hits[2].1, hits[4].1];
    assert Found(t1, text) == [hits[3].1] && Unmatched(t1, text) == [hits[1].1, hits[2].1, hits[4].1];
  }
}
