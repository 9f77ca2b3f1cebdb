/** The page's filter behaviour on its own sample data. */
module CompanyScenarios {
  import opened Wrappers
  import opened Seqs
  import opened Strings
  import opened Companies

  /** On a two-company list the result is decided company by company. */
  lemma FilterTwo(a: Company, b: Company, term: string, f: Filters)
    ensures FilterCompanies([a, b], term, f) ==
      (if Retained(a, term, f) then [a] else []) + (if Retained(b, term, f) then [b] else [])
  {
    FilterCompaniesIsConjunction([a, b], term, f);
    assert [a, b] == [a] + [b];
    FilterConcat([a], [b], RetainedMatcher(term, f));
  }

  const DreamOnly: Filters := NoFilters.(companyType := Some("dream"))

  /** "tec" occurs in Microsoft's industry "Technology", and Microsoft is a dream company. */
  lemma MicrosoftPassesTecAndDream()
    ensures Retained(MockCompanies()[0], "tec", DreamOnly)
  {
    assert Lower("tec") == "tec";
    assert Lower("Technology")[..3] == "tec";
  }

  /** Searching "tec" with the type filter "dream" keeps only Microsoft: the term
      matches its industry and TCS is a mass recruiter. */
  lemma TecAndDreamKeepsMicrosoft()
    ensures FilterCompanies(MockCompanies(), "tec", DreamOnly) == [MockCompanies()[0]]
  {
    MicrosoftPassesTecAndDream();
    assert !Retained(MockCompanies()[1], "tec", DreamOnly);
    FilterTwo(MockCompanies()[0], MockCompanies()[1], "tec", DreamOnly);
  }

  /** "MICRO" matches Microsoft's name once both are lower-cased. */
  lemma MicrosoftMatchesMicro()
    ensures Retained(MockCompanies()[0], "MICRO", NoFilters)
  {
    assert Lower("MICRO") == "micro";
    assert Lower("Microsoft")[..5] == "micro";
  }

  /** "MICRO" occurs neither in "TCS" nor in "IT Services", in any case. */
  lemma TcsMissesMicro()
    ensures !Retained(MockCompanies()[1], "MICRO", NoFilters)
  {
    assert Lower("TCS") == "tcs";
    assert Lower("IT Services") == "it services";
    MissingFirstCharMeansNoMatch(MockCompanies()[1], "MICRO");
  }

  /** Searching "MICRO" ignores case and finds Microsoft only. */
  lemma MicroFindsMicrosoft()
    ensures FilterCompanies(MockCompanies(), "MICRO", NoFilters) == [MockCompanies()[0]]
  {
    MicrosoftMatchesMicro();
    TcsMissesMicro();
    FilterTwo(MockCompanies()[0], MockCompanies()[1], "MICRO", NoFilters);
  }

  /** "zzz" occurs neither in "Microsoft" nor in "Technology". */
  lemma MicrosoftMissesZzz()
    ensures !MatchesSearch(MockCompanies()[0], "zzz")
  {
    assert Lower("Microsoft") == "microsoft";
    assert Lower("Technology") == "technology";
    MissingFirstCharMeansNoMatch(MockCompanies()[0], "zzz");
  }

  /** "zzz" occurs neither in "TCS" nor in "IT Services". */
  lemma TcsMissesZzz()
    ensures !MatchesSearch(MockCompanies()[1], "zzz")
  {
    assert Lower("TCS") == "tcs";
    assert Lower("IT Services") == "it services";
    MissingFirstCharMeansNoMatch(MockCompanies()[1], "zzz");
  }

  /** A term that occurs nowhere leaves nothing, and the page asks to adjust
      the search rather than to add a first company. */
  lemma UnknownTermShowsTryAdjusting()
    ensures EmptyState(FilterCompanies(MockCompanies(), "zzz", NoFilters), "zzz", NoFilters)
      == Some(TryAdjusting)
  {
    MicrosoftMissesZzz();
    TcsMissesZzz();
    NoMatchShowsTryAdjusting(MockCompanies(), "zzz", NoFilters);
  }
}
