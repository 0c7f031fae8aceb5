/** The simulated "Google Search Market Data" tool: a fixed lookup from a target
    role to one of three canned market snapshots, chosen by case-sensitive
    substring tests on the role. */
module MarketData {
  import opened Strings

  /** The role fragments the lookup tests for, in the order it tests them. */
  const DataAnalystKey: string := "Data Analyst"
  const SoftwareEngineerKey: string := "Software Engineer"

  /** Every snapshot begins with this tag. */
  const MarketDataPrefix: string := "Market Data:"

  /** Each snapshot is the join of its fragments; the fragments are split
      finer than the source writes them, so that each reported item is a
      fragment of its own. */
  const DataAnalystParts: seq<string> := [
    MarketDataPrefix, " The primary mandatory skills for a Junior ", DataAnalystKey, " are: ",
    "Advanced SQL", ", ", "Tableau", " Visualization, and ", "Python", " (Pandas/NumPy). ",
    "Secondary skills include basic cloud proficiency (AWS/Azure). ",
    "Typical salary range in major US metro areas is ", "$75,000 - $95,000", "."]

  const SoftwareEngineerParts: seq<string> := [
    MarketDataPrefix, " Mandatory skills for a Mid-Level ", SoftwareEngineerKey, " are: ",
    "Expertise in ", "Python/GoLang", ", proficiency in ", "Docker/Kubernetes", ", and ",
    "AWS/GCP", " services. ", "Typical salary range is ", "$120,000 - $160,000", "."]

  const FallbackParts: seq<string> := [
    MarketDataPrefix, " ", "No specific data found", ". General requirements: excellent ",
    "communication", ", ", "problem-solving", ", and ", "continuous learning", "."]

  const DataAnalystSnapshot: string := Join(DataAnalystParts)
  const SoftwareEngineerSnapshot: string := Join(SoftwareEngineerParts)
  const FallbackSnapshot: string := Join(FallbackParts)

  /** The hard-coded target role the script runs the pipeline with. */
  const ConfiguredRole: string := "Junior Data Analyst"

  /** The three possible answers of the lookup. */
  predicate IsSnapshot(r: string)
  {
    r == DataAnalystSnapshot || r == SoftwareEngineerSnapshot || r == FallbackSnapshot
  }

  /** The lookup itself: total (no precondition, no failure), and every answer
      is one of the three snapshots and carries the "Market Data:" tag. */
  function Lookup(targetRole: string): (r: string)
    ensures IsSnapshot(r)
    ensures StartsWith(r, MarketDataPrefix)
  {
    SnapshotsTagged();
    if Contains(targetRole, DataAnalystKey) then
      DataAnalystSnapshot
    else if Contains(targetRole, SoftwareEngineerKey) then
      SoftwareEngineerSnapshot
    else
      FallbackSnapshot
  }

  /** Every snapshot begins with the "Market Data:" tag. */
  lemma SnapshotsTagged()
    ensures StartsWith(DataAnalystSnapshot, MarketDataPrefix)
    ensures StartsWith(SoftwareEngineerSnapshot, MarketDataPrefix)
    ensures StartsWith(FallbackSnapshot, MarketDataPrefix)
  {
    JoinPart(DataAnalystParts, 0);
    JoinPart(SoftwareEngineerParts, 0);
    JoinPart(FallbackParts, 0);
  }

  /** The three snapshots are pairwise different (they differ at position 13,
      right after "Market Data: "), so an answer identifies its branch. */
  lemma SnapshotsDistinct()
    ensures DataAnalystSnapshot != SoftwareEngineerSnapshot
    ensures DataAnalystSnapshot != FallbackSnapshot
    ensures SoftwareEngineerSnapshot != FallbackSnapshot
  {
    assert Join([MarketDataPrefix]) == MarketDataPrefix;
    assert Join([" "]) == " ";
    assert Join([MarketDataPrefix, " "]) == MarketDataPrefix + Join([" "]);
    JoinPart(DataAnalystParts, 1);
    assert DataAnalystParts[..1] == [MarketDataPrefix];
    OccurrenceCharacter(DataAnalystSnapshot, DataAnalystParts[1], 12, 1);
    JoinPart(SoftwareEngineerParts, 1);
    assert SoftwareEngineerParts[..1] == [MarketDataPrefix];
    OccurrenceCharacter(SoftwareEngineerSnapshot, SoftwareEngineerParts[1], 12, 1);
    JoinPart(FallbackParts, 2);
    assert FallbackParts[..2] == [MarketDataPrefix, " "];
    OccurrenceCharacter(FallbackSnapshot, FallbackParts[2], 13, 0);
    assert DataAnalystSnapshot[13] == 'T';
    assert SoftwareEngineerSnapshot[13] == 'M';
    assert FallbackSnapshot[13] == 'N';
  }

  /** Exactly one of the three snapshots is the answer, for every role. */
  lemma LookupExactlyOne(targetRole: string)
    ensures var r := Lookup(targetRole);
      (if r == DataAnalystSnapshot then 1 else 0)
      + (if r == SoftwareEngineerSnapshot then 1 else 0)
      + (if r == FallbackSnapshot then 1 else 0) == 1
  {
    SnapshotsDistinct();
  }

  /** A role mentioning "Data Analyst" anywhere gets the Data Analyst snapshot,
      and only such a role does. */
  lemma LookupDataAnalystIff(targetRole: string)
    ensures Lookup(targetRole) == DataAnalystSnapshot <==> HasSubstring(targetRole, DataAnalystKey)
  {
    SnapshotsDistinct();
  }

  /** The Data Analyst test comes first: a role mentioning both fragments gets
      the Data Analyst snapshot. */
  lemma LookupPrecedence(targetRole: string)
    requires HasSubstring(targetRole, DataAnalystKey)
    requires HasSubstring(targetRole, SoftwareEngineerKey)
    ensures Lookup(targetRole) == DataAnalystSnapshot
  {
  }

  /** The Software Engineer snapshot is the answer exactly when the role
      mentions "Software Engineer" but not "Data Analyst". */
  lemma LookupSoftwareEngineerIff(targetRole: string)
    ensures Lookup(targetRole) == SoftwareEngineerSnapshot
      <==> !HasSubstring(targetRole, DataAnalystKey) && HasSubstring(targetRole, SoftwareEngineerKey)
  {
    SnapshotsDistinct();
  }

  /** The fallback answer comes exactly when the role mentions neither
      fragment. */
  lemma LookupFallbackIff(targetRole: string)
    ensures Lookup(targetRole) == FallbackSnapshot
      <==> !HasSubstring(targetRole, DataAnalystKey) && !HasSubstring(targetRole, SoftwareEngineerKey)
  {
    SnapshotsDistinct();
  }

  /** Whatever surrounds "Data Analyst" in the role, the answer is the Data
      Analyst snapshot. */
  lemma LookupDataAnalystInContext(before: string, after: string)
    ensures Lookup(before + DataAnalystKey + after) == DataAnalystSnapshot
  {
    assert OccursAt(DataAnalystKey, DataAnalystKey, 0);
    OccursInContext(before, DataAnalystKey, after, DataAnalystKey, 0);
  }

  /** Whatever surrounds "Software Engineer" in the role, the answer is the
      Software Engineer snapshot, unless the role also mentions "Data
      Analyst". */
  lemma LookupSoftwareEngineerInContext(before: string, after: string)
    requires !HasSubstring(before + SoftwareEngineerKey + after, DataAnalystKey)
    ensures Lookup(before + SoftwareEngineerKey + after) == SoftwareEngineerSnapshot
  {
    assert OccursAt(SoftwareEngineerKey, SoftwareEngineerKey, 0);
    OccursInContext(before, SoftwareEngineerKey, after, SoftwareEngineerKey, 0);
  }

  /** Matching is case-sensitive: with no upper-case 'D' or 'S' in it, a role
      falls through to the fallback, so "junior data analyst" does. */
  lemma LookupLowerCaseFallsThrough(targetRole: string)
    requires forall j :: 0 <= j < |targetRole| ==> targetRole[j] != 'D' && targetRole[j] != 'S'
    ensures Lookup(targetRole) == FallbackSnapshot
  {
    assert DataAnalystKey[0] == 'D';
    assert SoftwareEngineerKey[0] == 'S';
    AbsentCharacter(targetRole, DataAnalystKey, 0);
    AbsentCharacter(targetRole, SoftwareEngineerKey, 0);
  }

  /** The configured role written in lower case. */
  const LowerCaseRole: string := "junior data analyst"

  lemma LookupLowerCaseRole()
    ensures Lookup(LowerCaseRole) == FallbackSnapshot
  {
    LookupLowerCaseFallsThrough(LowerCaseRole);
  }

  /** The script's configured role, "Junior Data Analyst", gets the Data
      Analyst snapshot. */
  lemma LookupConfiguredRole()
    ensures Lookup(ConfiguredRole) == DataAnalystSnapshot
  {
    assert ConfiguredRole == "Junior " + DataAnalystKey + "";
    LookupDataAnalystInContext("Junior ", "");
  }

  /** What each snapshot reports: the Data Analyst snapshot names SQL, Tableau
      and Python and a $75,000 - $95,000 salary range. */
  lemma DataAnalystSnapshotContents()
    ensures HasSubstring(DataAnalystSnapshot, "Advanced SQL")
    ensures HasSubstring(DataAnalystSnapshot, "Tableau")
    ensures HasSubstring(DataAnalystSnapshot, "Python")
    ensures HasSubstring(DataAnalystSnapshot, "$75,000 - $95,000")
  {
    JoinPart(DataAnalystParts, 4);
    JoinPart(DataAnalystParts, 6);
    JoinPart(DataAnalystParts, 8);
    JoinPart(DataAnalystParts, 12);
  }

  /** The Software Engineer snapshot names Python/GoLang, Docker/Kubernetes and
      AWS/GCP and a $120,000 - $160,000 salary range. */
  lemma SoftwareEngineerSnapshotContents()
    ensures HasSubstring(SoftwareEngineerSnapshot, "Python/GoLang")
    ensures HasSubstring(SoftwareEngineerSnapshot, "Docker/Kubernetes")
    ensures HasSubstring(SoftwareEngineerSnapshot, "AWS/GCP")
    ensures HasSubstring(SoftwareEngineerSnapshot, "$120,000 - $160,000")
  {
    JoinPart(SoftwareEngineerParts, 5);
    JoinPart(SoftwareEngineerParts, 7);
    JoinPart(SoftwareEngineerParts, 9);
    JoinPart(SoftwareEngineerParts, 12);
  }

  /** The fallback says no specific data was found and lists communication,
      problem-solving and continuous learning. */
  lemma FallbackSnapshotContents()
    ensures HasSubstring(FallbackSnapshot, "No specific data found")
    ensures HasSubstring(FallbackSnapshot, "communication")
    ensures HasSubstring(FallbackSnapshot, "problem-solving")
    ensures HasSubstring(FallbackSnapshot, "continuous learning")
  {
    JoinPart(FallbackParts, 2);
    JoinPart(FallbackParts, 4);
    JoinPart(FallbackParts, 6);
    JoinPart(FallbackParts, 8);
  }
}
