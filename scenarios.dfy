/** Data of the bundled catalog used as fixtures: the first template's pattern and
    its example question. */
module Fixtures {
  const ExampleQuestion: string := "这个月坪山街道办事处处理了多少案件"
  const UnitCountPattern: string := ".*街道.*处理.*多少.*案件"
  const UnitCountPieces: seq<string> := ["", "街道", "处理", "多少", "案件"]
}

/** The `unit_name` capture on the example question. */
module UnitScenarios {
  import opened Wrappers
  import opened Text
  import opened Patterns
  import opened Fixtures

  lemma ExampleMatchesAtStart()
    ensures UnitMatch(ExampleQuestion, 0, 5)
  {
    assert ExampleQuestion[5..10] == OfficeSuffix;
  }

  lemma ExampleSuffixOnlyOnce()
    ensures forall j :: 5 < j ==> !OccursAt(OfficeSuffix, ExampleQuestion, j)
  {
    forall j | 5 < j
      ensures !OccursAt(OfficeSuffix, ExampleQuestion, j)
    {
      if j <= |ExampleQuestion| - |OfficeSuffix| {
        assert ExampleQuestion[j] != OfficeSuffix[0];
      }
    }
  }

  /** The capture starts at index 0: 这个月 is itself made of class characters. */
  lemma UnitNameOfExample()
    ensures UnitCapture(ExampleQuestion) == Some("这个月坪山街道办事处")
  {
    ExampleMatchesAtStart();
    ExampleSuffixOnlyOnce();
    UnitCaptureProperties(ExampleQuestion);
    assert ExampleQuestion[0..10] == "这个月坪山街道办事处";
  }
}

/** The default month window in December. */
module DateScenarios {
  import opened Calendar

  lemma FirstOfDecember()
    ensures FormatDate(Date(2025, 12, 1)) == "2025-12-01"
  {
  }

  lemma FirstOfJanuary()
    ensures FirstOfNextMonth(2025, 12) == Date(2026, 1, 1)
    ensures FormatDate(Date(2026, 1, 1)) == "2026-01-01"
  {
  }

  /** A mid-December date: the window ends on the first of January of the next year. */
  lemma DecemberWindow(today: Date)
    requires today == Date(2025, 12, 15)
    ensures DefaultTimeFilter(today) == "CREATE_TIME >= '" + "2025-12-01" + "' AND CREATE_TIME < '" + "2026-01-01" + "'"
  {
    FirstOfDecember();
    FirstOfJanuary();
  }
}

/** The first bundled template's pattern against its example question. */
module PatternScenarios {
  import opened Text
  import opened Patterns

  import opened Fixtures

  lemma PatternIsJoin()
    ensures UnitCountPattern == Join(UnitCountPieces, ".*")
  {
  }

  /** The first bundled pattern splits into its literal pieces. */
  lemma PiecesOfUnitCountPattern()
    ensures Pieces(UnitCountPattern) == UnitCountPieces
  {
    PatternIsJoin();
    PiecesOfJoin(UnitCountPieces);
  }

  /** The pieces occur in order in the example question: 街道 at 5, 处理 at 10,
      多少 at 13, 案件 at 15. */
  lemma PiecesInExample()
    ensures InOrder(UnitCountPieces, ExampleQuestion, false)
  {
    var q := ExampleQuestion;
    var js: seq<nat> := [0, 5, 10, 13, 15];
    assert q[5..7] == "街道" && q[10..12] == "处理" && q[13..15] == "多少" && q[15..17] == "案件";
    assert q[0..0] == "";
    assert NewlineFree(q[0..5]);
    assert GapAfter(UnitCountPieces, q, js, 0) && GapAfter(UnitCountPieces, q, js, 1)
        && GapAfter(UnitCountPieces, q, js, 2) && GapAfter(UnitCountPieces, q, js, 3);
    InOrderAtPositions(UnitCountPieces, q, 0, js, false);
    assert q[0..] == q;
  }

  /** The first bundled pattern matches its own example question. */
  lemma FirstPatternMatchesExample()
    ensures Matches(UnitCountPattern, ExampleQuestion)
  {
    PiecesOfUnitCountPattern();
    PiecesInExample();
    MatchesMeaning(UnitCountPattern, ExampleQuestion);
  }
}
