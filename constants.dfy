/** The fixed label tables of constants.ts. */
module Constants {

  /** The canonical remark labels in display and default order; the first is the default remark. */
  const NormalizedRemarks: seq<string> := [
    "EXPIRED VALID ID",
    "MODIFIED ID",
    "PAG-IBIG ID",
    "DIGITAL ID",
    "ID ALREADY USED",
    "UNDERAGE",
    "BLURRED ID",
    "BLURRED PHOTO (SELFIE)",
    "ID DOES NOT BELONG TO THE USER",
    "LATEST VALID ID REQUIRED",
    "FACIAL RECOGNITION ERROR",
    "PHOTOGRAPH INCLUDES A MINOR",
    "NDRP",
    "DAMAGED ID"
  ]

  /** The "PRIORITY IF MULTIPLE MATCH" list that the extraction instructions embed. */
  const PriorityRemarks: seq<string> := [
    "ID ALREADY USED",
    "EXPIRED VALID ID",
    "MODIFIED ID",
    "UNDERAGE",
    "ID DOES NOT BELONG TO THE USER",
    "BLURRED ID",
    "BLURRED PHOTO (SELFIE)",
    "PAG-IBIG ID",
    "DIGITAL ID",
    "LATEST VALID ID REQUIRED",
    "FACIAL RECOGNITION ERROR",
    "PHOTOGRAPH INCLUDES A MINOR",
    "DAMAGED ID",
    "NDRP"
  ]

  /** The auditor identifiers; the first is the initial auditor of a session. */
  const Auditors: seq<string> := [
    "RCNORBERTO", "RCEMMANUEL", "RCLADIECYN", "RCCHARMAINE", "RCALEJANDRO",
    "RCPERLY", "RCLOVELY", "RCJOSEPH", "RCHANNAH", "RCANGELU",
    "RCCALVIN", "RCSAYLEEN", "RCCAREEN", "RCJOSEPHB", "RCMICAH",
    "RCRHEYMART", "RCMARK", "RCDIVINE", "RCANGELES", "RCBERNIE",
    "RCLEALYN", "RCPANDAY", "RCRUEGIE", "RCMANANSALA", "RCMIRANDA",
    "RCMATIONG", "RCZYRONE"
  ]

  /** No label occurs twice. */
  ghost predicate Distinct(s: seq<string>) {
    forall i, j :: 0 <= i < j < |s| ==> s[i] != s[j]
  }

  /** Fourteen distinct remark labels, the default one first. */
  lemma NormalizedRemarksTable()
    ensures |NormalizedRemarks| == 14
    ensures Distinct(NormalizedRemarks)
    ensures NormalizedRemarks[0] == "EXPIRED VALID ID"
  {
  }

  /** Twenty-seven distinct auditor identifiers, "RCNORBERTO" first. */
  lemma AuditorsTable()
    ensures |Auditors| == 27
    ensures Distinct(Auditors)
    ensures Auditors[0] == "RCNORBERTO"
  {
  }

  /**
    The priority list holds the same fourteen labels in another order, from
    "ID ALREADY USED" down to "NDRP".
   */
  lemma PriorityIsPermutation()
    ensures |PriorityRemarks| == |NormalizedRemarks|
    ensures Distinct(PriorityRemarks)
    ensures forall x :: x in PriorityRemarks <==> x in NormalizedRemarks
    ensures PriorityRemarks != NormalizedRemarks
    ensures PriorityRemarks[0] == "ID ALREADY USED" && PriorityRemarks[13] == "NDRP"
    ensures multiset(PriorityRemarks) == multiset(NormalizedRemarks)
  {
    NormalizedRemarksTable();
    assert forall x :: x in PriorityRemarks <==> x in NormalizedRemarks;
    DistinctSameElements(PriorityRemarks, NormalizedRemarks);
  }

  /** In a list without repeats every element occurs exactly once. */
  lemma {:induction false} DistinctMultiplicity(s: seq<string>, x: string)
    requires Distinct(s)
    ensures multiset(s)[x] == if x in s then 1 else 0
    decreases |s|
  {
    if s != [] {
      assert s == [s[0]] + s[1..];
      assert Distinct(s[1..]) by {
        forall i, j | 0 <= i < j < |s[1..]| ensures s[1..][i] != s[1..][j] {
          assert s[1..][i] == s[i + 1] && s[1..][j] == s[j + 1];
        }
      }
      DistinctMultiplicity(s[1..], x);
      assert s[0] !in s[1..] by {
        forall k | 0 <= k < |s[1..]| ensures s[1..][k] != s[0] {
          assert s[1..][k] == s[k + 1];
        }
      }
      assert multiset(s) == multiset([s[0]]) + multiset(s[1..]);
    }
  }

  /** Two repeat-free lists with the same elements are permutations of each other. */
  lemma DistinctSameElements(a: seq<string>, b: seq<string>)
    requires Distinct(a) && Distinct(b)
    requires forall x :: x in a <==> x in b
    ensures multiset(a) == multiset(b)
  {
    forall x ensures multiset(a)[x] == multiset(b)[x] {
      DistinctMultiplicity(a, x);
      DistinctMultiplicity(b, x);
    }
  }
}
