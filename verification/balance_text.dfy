/**
 * The cleaning `current_balance` applies to the scraped balance text before
 * formatting it: three in-place `gsub!` deletions.
 */
module BalanceText {
  import opened RubyText

  /** The three in-place deletions applied to the scraped balance text:
      every "GBP", then every pound sign, then every comma. No comma and no
      pound sign survives, every character outside "GBP£," is kept as often
      as the text has it, and the text never grows. */
  function CleanBalanceText(text: string): (r: string)
    ensures ',' !in r && '£' !in r
    ensures forall c :: c !in "GBP£," ==> multiset(r)[c] == multiset(text)[c]
    ensures |r| <= |text|
  {
    var noCode := RemoveAll(text, "GBP");
    var noSymbol := RemoveAll(noCode, "£");
    var noSeparator := RemoveAll(noSymbol, ",");
    RemoveCharIsWithout(noCode, '£');
    RemoveCharIsWithout(noSymbol, ',');
    RemoveAllKeepsOthers(text, "GBP");
    RemoveAllKeepsOthers(noCode, "£");
    RemoveAllKeepsOthers(noSymbol, ",");
    assert multiset(noSeparator)['£'] == multiset(noSymbol)['£'] == 0;
    noSeparator
  }

  /** The cleaning leaves a text untouched exactly when it holds no "GBP", no
      pound sign and no comma. */
  lemma CleanUnchangedIff(text: string)
    ensures CleanBalanceText(text) == text <==> !Contains(text, "GBP") && '£' !in text && ',' !in text
  {
    var noCode := RemoveAll(text, "GBP");
    var noSymbol := RemoveAll(noCode, "£");
    RemoveAllChangesIffContains(text, "GBP");
    RemoveAllChangesIffContains(noCode, "£");
    RemoveAllChangesIffContains(noSymbol, ",");
    ContainsChar(noCode, '£');
    ContainsChar(noSymbol, ',');
    ContainsChar(text, '£');
    ContainsChar(text, ',');
  }

  /** The cleaning is not idempotent: deleting one "GBP" can bring a new
      "GBP" together, which survives the pass and goes on the next. */
  lemma CleanNotIdempotent()
    ensures CleanBalanceText("GGBPBP") == "GBP"
    ensures CleanBalanceText(CleanBalanceText("GGBPBP")) == ""
  {
    assert RemoveAll("GGBPBP", "GBP") == "GBP";
    assert CleanBalanceText("GGBPBP") == "GBP";
  }

  /** Deleting a comma can bring a "GBP" together, which the earlier pass no
      longer sees. */
  lemma CleanLeavesJoinedCode()
    ensures CleanBalanceText("G,BP") == "GBP"
  {
    assert !Contains("G,BP", "GBP") by {
      assert "G,BP"[1..] == ",BP" && ",BP"[1..] == "BP";
    }
    RemoveAllChangesIffContains("G,BP", "GBP");
    RemoveCharIsWithout("G,BP", '£');
    RemoveCharIsWithout("G,BP", ',');
    assert Without("G,BP", ',') == "GBP" by {
      assert "G,BP"[1..] == ",BP" && ",BP"[1..] == "BP";
      assert Without("BP", ',') == "BP";
    }
  }

  // The three passes over "GBP1,234.5", one lemma each
  lemma CodeTextFirstPass() ensures RemoveAll("GBP1,234.5", "GBP") == "1,234.5" {
    assert StartsWith("GBP1,234.5", "GBP");
    assert "GBP1,234.5"[3..] == "1,234.5";
    ContainsHead("1,234.5", "GBP");
    RemoveAllChangesIffContains("1,234.5", "GBP");
  }
  lemma CodeTextSecondPass() ensures RemoveAll("1,234.5", "£") == "1,234.5" {
    RemoveCharIsWithout("1,234.5", '£');
  }
  lemma CodeTextThirdPass() ensures RemoveAll("1,234.5", ",") == "1234.5" {
    ContainsChar("234.5", ',');
    RemoveAllChangesIffContains("234.5", ",");
    assert "1,234.5"[1..] == ",234.5" && ",234.5"[1..] == "234.5";
  }

  /** A balance text with the currency code and a group separator cleans to
      a plain number. */
  lemma CleanCodeExample()
    ensures CleanBalanceText("GBP1,234.5") == "1234.5"
  {
    CodeTextFirstPass();
    CodeTextSecondPass();
    CodeTextThirdPass();
  }

  // The three passes over "£2,500.00", one lemma each
  lemma PoundTextFirstPass() ensures RemoveAll("£2,500.00", "GBP") == "£2,500.00" {
    ContainsHead("£2,500.00", "GBP");
    RemoveAllChangesIffContains("£2,500.00", "GBP");
  }
  lemma PoundTextSecondPass() ensures RemoveAll("£2,500.00", "£") == "2,500.00" {
    RemoveCharIsWithout("£2,500.00", '£');
    assert "£2,500.00"[1..] == "2,500.00";
  }
  lemma PoundTextThirdPass() ensures RemoveAll("2,500.00", ",") == "2500.00" {
    ContainsChar("500.00", ',');
    RemoveAllChangesIffContains("500.00", ",");
    assert "2,500.00"[1..] == ",500.00" && ",500.00"[1..] == "500.00";
  }

  /** A balance text with the pound sign and a group separator cleans to a
      plain number. */
  lemma CleanPoundExample()
    ensures CleanBalanceText("£2,500.00") == "2500.00"
  {
    PoundTextFirstPass();
    PoundTextSecondPass();
    PoundTextThirdPass();
  }
}
