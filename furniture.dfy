/** The furniture list of a design request: the comma-separated `furniture`
    text split, stripped and filtered, with a two-item default. */
module Furniture {
  import opened PyStr

  const DefaultFurniture: seq<string> := ["Sofa", "Bed"]

  /** The text has no furniture name in it: only commas and whitespace. */
  predicate Blank(text: string) {
    forall i | 0 <= i < |text| :: text[i] == ',' || IsSpace(text[i])
  }

  /** Every token of the list is blank (all whitespace). */
  predicate AllBlank(tokens: seq<string>) {
    forall j | 0 <= j < |tokens| :: AllSpace(tokens[j])
  }

  /** A furniture name: non-empty, with no whitespace at either end. */
  predicate IsName(s: string) {
    s != [] && NoEdgeSpace(s)
  }

  /** The list comprehension `[f.strip() for f in tokens if f.strip()]`. */
  function StripNonBlank(tokens: seq<string>): (names: seq<string>)
    ensures |names| <= |tokens|
  {
    if tokens == [] then []
    else
      var name := Strip(tokens[0]);
      (if name == [] then [] else [name]) + StripNonBlank(tokens[1..])
  }

  /** Every name the comprehension keeps is non-empty with no whitespace at
      either end. */
  lemma {:induction false} StripNonBlankNames(tokens: seq<string>)
    ensures forall k | 0 <= k < |StripNonBlank(tokens)| :: IsName(StripNonBlank(tokens)[k])
  {
    if tokens != [] {
      StripNonBlankNames(tokens[1..]);
    }
  }

  /** The comprehension is empty exactly when every token is blank. */
  lemma {:induction false} StripNonBlankEmpty(tokens: seq<string>)
    ensures StripNonBlank(tokens) == [] <==> AllBlank(tokens)
  {
    if tokens != [] {
      StripNonBlankEmpty(tokens[1..]);
      AllBlankCons(tokens);
    }
  }

  lemma {:induction false} AllBlankCons(tokens: seq<string>)
    requires tokens != []
    ensures AllBlank(tokens) <==> AllSpace(tokens[0]) && AllBlank(tokens[1..])
  {
    assert forall j | 1 <= j < |tokens| :: tokens[1..][j - 1] == tokens[j];
  }

  /** The comprehension works token by token: filtering a concatenation is
      concatenating the filtered parts, so names keep their input order. */
  lemma {:induction false} StripNonBlankAppend(a: seq<string>, b: seq<string>)
    ensures StripNonBlank(a + b) == StripNonBlank(a) + StripNonBlank(b)
  {
    if a != [] {
      var ab := a + b;
      assert ab[0] == a[0] && ab[1..] == a[1..] + b;
      StripNonBlankAppend(a[1..], b);
      var name := Strip(a[0]);
      var head := if name == [] then [] else [name];
      assert StripNonBlank(ab) == head + (StripNonBlank(a[1..]) + StripNonBlank(b));
      assert StripNonBlank(a) == head + StripNonBlank(a[1..]);
    } else {
      assert a + b == b;
    }
  }

  /** Every name the comprehension keeps is the stripped form of some
      non-blank token of its input. */
  lemma {:induction false} StripNonBlankFrom(tokens: seq<string>)
    ensures forall k | 0 <= k < |StripNonBlank(tokens)| ::
      exists j | 0 <= j < |tokens| :: !AllSpace(tokens[j]) && StripNonBlank(tokens)[k] == Strip(tokens[j])
  {
    if tokens != [] {
      var rest := tokens[1..];
      StripNonBlankFrom(rest);
      var name := Strip(tokens[0]);
      var head := if name == [] then [] else [name];
      var names := StripNonBlank(tokens);
      assert names == head + StripNonBlank(rest);
      forall k | 0 <= k < |StripNonBlank(tokens)|
        ensures exists j | 0 <= j < |tokens| :: !AllSpace(tokens[j]) && StripNonBlank(tokens)[k] == Strip(tokens[j])
      {
        if k < |head| {
          assert !AllSpace(tokens[0]) && names[k] == Strip(tokens[0]);
        } else {
          var j :| 0 <= j < |rest| && !AllSpace(rest[j]) && StripNonBlank(rest)[k - |head|] == Strip(rest[j]);
          assert names[k] == StripNonBlank(rest)[k - |head|];
          assert rest[j] == tokens[j + 1];
          assert !AllSpace(tokens[j + 1]) && names[k] == Strip(tokens[j + 1]);
        }
      }
    } else {
      assert StripNonBlank(tokens) == [];
    }
  }

  /** One token contributes its stripped form, or nothing when blank, ahead
      of what the remaining tokens contribute. */
  lemma {:induction false} StripNonBlankCons(token: string, tokens: seq<string>)
    ensures StripNonBlank([token] + tokens)
         == (if AllSpace(token) then [] else [Strip(token)]) + StripNonBlank(tokens)
  {
    assert ([token] + tokens)[1..] == tokens;
  }

  /** `furniture_list` after lines 62-64 of the handler. */
  function ParseFurniture(text: string): (names: seq<string>)
    ensures names != []
    ensures forall k | 0 <= k < |names| :: IsName(names[k]) && ',' !in names[k]
    ensures Blank(text) ==> names == DefaultFurniture
    ensures !Blank(text) ==> names == StripNonBlank(Split(text, ','))
    ensures !Blank(text) ==> |names| <= Count(text, ',') + 1
  {
    var tokens := Split(text, ',');
    var names := StripNonBlank(tokens);
    BlankTokens(text);
    StripNonBlankEmpty(tokens);
    StripNonBlankNames(tokens);
    if names == [] then
      DefaultIsNames();
      DefaultFurniture
    else
      StrippedNamesHaveNoComma(tokens);
      names
  }

  lemma DefaultIsNames()
    ensures forall k | 0 <= k < |DefaultFurniture| :: IsName(DefaultFurniture[k]) && ',' !in DefaultFurniture[k]
  {
    assert !IsSpace('S') && !IsSpace('a') && !IsSpace('B') && !IsSpace('d');
  }

  /** Names stripped from comma-free tokens are comma-free. */
  lemma {:induction false} StrippedNamesHaveNoComma(tokens: seq<string>)
    requires forall j | 0 <= j < |tokens| :: ',' !in tokens[j]
    ensures forall k | 0 <= k < |StripNonBlank(tokens)| :: ',' !in StripNonBlank(tokens)[k]
  {
    if tokens != [] {
      StripKeepsOut(tokens[0], ',');
      StrippedNamesHaveNoComma(tokens[1..]);
    }
  }

  /** Every token of `text.split(",")` is blank exactly when the text holds
      nothing but commas and whitespace. */
  lemma {:induction false} BlankTokens(text: string)
    ensures AllBlank(Split(text, ',')) <==> Blank(text)
  {
    if text != [] {
      var rest := Split(text[1..], ',');
      var tokens := Split(text, ',');
      BlankTokens(text[1..]);
      assert Blank(text) <==> (text[0] == ',' || IsSpace(text[0])) && Blank(text[1..]) by {
        assert forall i | 1 <= i < |text| :: text[1..][i - 1] == text[i];
      }
      AllBlankCons(tokens);
      if text[0] == ',' {
        assert tokens == [[]] + rest;
        assert tokens[1..] == rest;
      } else {
        assert tokens == [[text[0]] + rest[0]] + rest[1..];
        assert tokens[1..] == rest[1..];
        AllBlankCons(rest);
        AllSpaceCons(text[0], rest[0]);
      }
    }
  }

  /** Line 62 on a worked input: names are trimmed and come in input order. */
  lemma ParseExample()
    ensures ParseFurniture("Sofa, Bed ,  Lamp") == ["Sofa", "Bed", "Lamp"]
  {
    ExampleTokens();
    ExampleFilter();
  }

  lemma ExampleTokens()
    ensures ParseFurniture("Sofa, Bed ,  Lamp") == StripNonBlank(["Sofa", " Bed ", "  Lamp"])
  {
    var text := "Sofa, Bed ,  Lamp";
    ExampleSplit();
    ExampleNotBlank();
    ParseNonBlank(text, ["Sofa", " Bed ", "  Lamp"]);
  }

  lemma ExampleNotBlank()
    ensures !Blank("Sofa, Bed ,  Lamp")
  {
    var text := "Sofa, Bed ,  Lamp";
    assert text[0] == 'S' && !IsSpace('S');
  }

  lemma {:induction false} ParseNonBlank(text: string, tokens: seq<string>)
    requires Split(text, ',') == tokens && !Blank(text)
    ensures ParseFurniture(text) == StripNonBlank(tokens)
  {
  }

  lemma ExampleFilter()
    ensures StripNonBlank(["Sofa", " Bed ", "  Lamp"]) == ["Sofa", "Bed", "Lamp"]
  {
    ExampleStripSofa();
    ExampleStripBed();
    ExampleStripLamp();
    StripNonBlankThree("Sofa", " Bed ", "  Lamp");
  }

  lemma {:induction false} StripNonBlankThree(a: string, b: string, c: string)
    requires !AllSpace(a) && !AllSpace(b) && !AllSpace(c)
    ensures StripNonBlank([a, b, c]) == [Strip(a), Strip(b), Strip(c)]
  {
    assert [a, b, c] == [a] + [b, c] && [b, c] == [b] + [c] && [c] == [c] + [];
    StripNonBlankCons(c, []);
    StripNonBlankCons(b, [c]);
    StripNonBlankCons(a, [b, c]);
    assert StripNonBlank([c]) == [Strip(c)];
    assert StripNonBlank([b, c]) == [Strip(b), Strip(c)];
  }

  lemma ExampleSplit()
    ensures Split("Sofa, Bed ,  Lamp", ',') == ["Sofa", " Bed ", "  Lamp"]
  {
    var tokens := ["Sofa", " Bed ", "  Lamp"];
    JoinThree(tokens[0], tokens[1], tokens[2], ',');
    assert tokens[0] + [','] + tokens[1] + [','] + tokens[2] == "Sofa, Bed ,  Lamp";
    SplitJoin(tokens, ',');
  }

  lemma ExampleStripSofa()
    ensures Strip("Sofa") == "Sofa"
  {
    assert NoEdgeSpace("Sofa");
    StripUnique("", "Sofa", "");
    assert "" + "Sofa" + "" == "Sofa";
  }

  lemma ExampleStripBed()
    ensures Strip(" Bed ") == "Bed"
  {
    assert NoEdgeSpace("Bed") && AllSpace(" ");
    StripUnique(" ", "Bed", " ");
    assert " " + "Bed" + " " == " Bed ";
  }

  lemma ExampleStripLamp()
    ensures Strip("  Lamp") == "Lamp"
  {
    assert NoEdgeSpace("Lamp") && AllSpace("  ");
    StripUnique("  ", "Lamp", "");
    assert "  " + "Lamp" + "" == "  Lamp";
  }

  lemma {:induction false} JoinThree(a: string, b: string, c: string, sep: char)
    ensures Join([a, b, c], sep) == a + [sep] + b + [sep] + c
  {
    assert [a, b, c] == [a] + [b, c];
    JoinCons(a, [b, c], sep);
    assert [b, c] == [b] + [c];
    JoinCons(b, [c], sep);
    assert a + [sep] + (b + [sep] + c) == a + [sep] + b + [sep] + c;
  }
}
