/**
  Concrete invocations of the launcher, stated against the model of the whole
  script: a name resolved among several devices, the apostrophe and trailing-space
  pitfalls, and a failing completion.
 */
module Scenarios {
  import opened Wrappers
  import opened Ascii
  import opened Cli
  import opened Directory
  import opened Launcher

  // Facts about the literal names used by the scenarios below, each kept in a
  // lemma of its own so that folding the literals stays cheap.

  lemma OfficeFolds()
    ensures LowerStr("Office iPad") == "office ipad"
  {
  }

  lemma OfficeIsLowered()
    ensures IsLowered("office ipad")
  {
  }

  lemma KitchenDiffers()
    ensures !Matches("Kitchen iPad", "office ipad")
  {
    assert LowerStr("Kitchen iPad")[0] == 'k';
  }

  lemma OfficeIsSecond()
    ensures IsFirstMatch(["Kitchen iPad", "Office iPad"], "office ipad", 1)
  {
    OfficeFolds();
    KitchenDiffers();
  }

  lemma OfficeResolves()
    ensures Resolve(["Kitchen iPad", "Office iPad"], "office ipad") == Some(1)
  {
    OfficeIsSecond();
    ResolveIsFirstMatch(["Kitchen iPad", "Office iPad"], "office ipad", 1);
  }

  lemma ConnectOfficeParses()
    ensures Parse(["connect", "office ipad"]) == Success(Request(Connect, "office ipad"))
  {
    assert IsLowered("office ipad");
    ParseWordsRoundTrip(Request(Connect, "office ipad"), []);
    assert Words(Request(Connect, "office ipad")) + [] == ["connect", "office ipad"];
  }

  /** `connect "office ipad"` against ["Kitchen iPad", "Office iPad"] connects
      to the second device, once, and succeeds. */
  lemma OfficeIpadScenario()
    ensures Run(["connect", "office ipad"], Some(["Kitchen iPad", "Office iPad"]), None) ==
      Outcome(true, Some(ConnectToDevice(1)), [Connected], Exit(Ok))
  {
    OfficeResolves();
    ConnectOfficeParses();
  }

  lemma ConnectJoesParses()
    ensures Parse(["connect", "joe's ipad"]) == Success(Request(Connect, "joe's ipad"))
  {
    assert IsLowered("joe's ipad");
    ParseWordsRoundTrip(Request(Connect, "joe's ipad"), []);
    assert Words(Request(Connect, "joe's ipad")) + [] == ["connect", "joe's ipad"];
  }

  lemma JoesResolves()
    ensures Resolve(["Joe's iPad"], "joe's ipad") == Some(0)
  {
    assert LowerStr("Joe's iPad") == "joe's ipad";
    assert Matches(["Joe's iPad"][0], "joe's ipad");
  }

  lemma TrailingSpaceResolvesNone()
    ensures Resolve(["Joe's iPad "], "joe's ipad") == None
  {
    assert |LowerStr("Joe's iPad ")| != |"joe's ipad"|;
    assert !Matches(["Joe's iPad "][0], "joe's ipad");
  }

  lemma ApostropheGlyphResolvesNone()
    ensures Resolve(["Joe\U{02BC}s iPad"], "joe's ipad") == None
  {
    assert LowerStr("Joe\U{02BC}s iPad")[3] != "joe's ipad"[3];
    assert !Matches(["Joe\U{02BC}s iPad"][0], "joe's ipad");
  }

  /** A trailing space or a different apostrophe glyph makes a different name,
      while a name that differs only in the case of ASCII letters matches. */
  lemma ApostropheScenario()
    ensures Run(["connect", "joe's ipad"], Some(["Joe's iPad "]), None).status == Exit(NameNotFound)
    ensures Run(["connect", "joe's ipad"], Some(["Joe\U{02BC}s iPad"]), None).status == Exit(NameNotFound)
    ensures Run(["connect", "joe's ipad"], Some(["Joe's iPad"]), None).status == Exit(Ok)
  {
    ConnectJoesParses();
    TrailingSpaceResolvesNone();
    ApostropheGlyphResolvesNone();
    JoesResolves();
  }

  lemma DisconnectOfficeParses()
    ensures Parse(["disconnect", "office ipad"]) == Success(Request(Disconnect, "office ipad"))
  {
    assert IsLowered("office ipad");
    ParseWordsRoundTrip(Request(Disconnect, "office ipad"), []);
    assert Words(Request(Disconnect, "office ipad")) + [] == ["disconnect", "office ipad"];
  }

  lemma OfficeOnlyResolves()
    ensures Resolve(["Office iPad"], "office ipad") == Some(0)
  {
    OfficeFolds();
    assert Matches(["Office iPad"][0], "office ipad");
  }

  /** A completion error yields status 4 and prints the error's description. */
  lemma CompletionErrorScenario(e: string)
    ensures Run(["disconnect", "office ipad"], Some(["Office iPad"]), Some(e)) ==
      Outcome(true, Some(DisconnectFromDevice(0)), [OperationError(e)], Exit(OperationFailed))
  {
    DisconnectOfficeParses();
    OfficeOnlyResolves();
  }
}
