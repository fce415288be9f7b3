/** Which messages call a command, and what of them a model is given. */
module Commands {
  import opened Text

  /** The text starts with `/` and the name in any case, then whitespace or its end. */
  predicate Calls(text: string, name: string) {
    && |text| > |name|
    && text[0] == '/' && Lower(text[1..|name| + 1]) == name
    && (|text| == |name| + 1 || IsSpace(text[|name| + 1]))
  }

  /** What a model is given of a stored message: the text after a command that has any; all of a
      message that does not parse; else the message without whitespace around it. */
  function TextForModel(content: string): string {
    var text := content[RunEnd(content, 0)..];
    if IsBlank(content) then content
    else if Calls(text, "push") then AfterCommand(content, text[5..])
    else if Calls(text, "pull") then AfterCommand(content, text[5..])
    else if Calls(text, "explore") then AfterCommand(content, text[8..])
    else if Calls(text, "compact") || Calls(text, "delete") then content
    else Strip(content)
  }

  function AfterCommand(content: string, rest: string): string {
    if Strip(rest) == "" then content else Strip(rest)
  }

  predicate LacksText(text: string, name: string)
    requires 1 + |name| <= |text|
  {
    Strip(text[1 + |name|..]) == ""
  }

  /** A message that a turn answers: not blank, a command that needs text has some, and it is not one
      of the commands that are done otherwise. */
  predicate IsAnswered(content: string) {
    var text := content[RunEnd(content, 0)..];
    && !IsBlank(content)
    && !(Calls(text, "push") && LacksText(text, "push"))
    && !(Calls(text, "pull") && LacksText(text, "pull"))
    && !(Calls(text, "explore") && LacksText(text, "explore"))
    && !Calls(text, "compact") && !Calls(text, "delete")
  }

  /** The message is a /push command. */
  predicate IsPush(content: string) {
    !IsBlank(content) && Calls(content[RunEnd(content, 0)..], "push")
  }

  // --- Said of how a message is written ---------------------------------------------------------

  predicate TakesText(name: string) {
    name == "push" || name == "pull" || name == "explore"
  }

  predicate IsCommand(name: string) {
    TakesText(name) || name == "compact" || name == "delete"
  }

  /** Whitespace, a slash, a name in any case, and the rest, which starts with whitespace if there is any. */
  predicate IsWritten(lead: string, written: string, name: string, rest: string) {
    IsBlank(lead) && Lower(written) == name && (rest == "" || IsSpace(rest[0]))
  }

  lemma LeadEnds(lead: string, text: string)
    requires IsBlank(lead) && text != "" && text[0] == '/'
    ensures RunEnd(lead + text, 0) == |lead| && (lead + text)[|lead|..] == text && !IsBlank(lead + text)
  {
    var s := lead + text;
    assert s[|lead|] == '/' && !IsSpace('/');
    if |lead| < RunEnd(s, 0) {
      RunIsSpace(s, 0, |lead|);
    }
    assert forall i | 0 <= i < |lead| :: s[i] == lead[i];
  }

  lemma WrittenCalls(written: string, name: string, rest: string)
    requires Lower(written) == name && (rest == "" || IsSpace(rest[0]))
    ensures var text := "/" + written + rest; Calls(text, name) && text[|name| + 1..] == rest
  {
    var text := "/" + written + rest;
    assert text[1..|name| + 1] == written && text[|name| + 1..] == rest;
  }

  lemma CallsIsWritten(text: string, name: string) returns (written: string, rest: string)
    requires Calls(text, name)
    ensures text == "/" + written + rest && Lower(written) == name && (rest == "" || IsSpace(rest[0]))
  {
    written, rest := text[1..|name| + 1], text[|name| + 1..];
  }

  lemma LowerStart(s: string, n: nat)
    requires n <= |s|
    ensures Lower(s[..n]) == Lower(s)[..n]
  {
  }

  lemma SameStart(text: string, a: string, b: string)
    requires Calls(text, a) && Calls(text, b) && |a| <= |b|
    ensures a <= b
  {
    assert text[1..|a| + 1] == text[1..|b| + 1][..|a|];
    LowerStart(text[1..|b| + 1], |a|);
  }

  lemma NoNameStartsAnother(a: string, b: string)
    requires IsCommand(a) && IsCommand(b) && a <= b
    ensures a == b
  {
    assert a[0] == b[0] && a[2] == b[2];
  }

  /** Of the commands, the text calls this one. */
  predicate CallsJust(text: string, name: string) {
    && (Calls(text, "push") <==> name == "push") && (Calls(text, "pull") <==> name == "pull")
    && (Calls(text, "explore") <==> name == "explore") && (Calls(text, "compact") <==> name == "compact")
    && (Calls(text, "delete") <==> name == "delete")
  }

  /** No text calls two commands. */
  lemma OnlyCommand(text: string, name: string)
    requires Calls(text, name) && IsCommand(name)
    ensures CallsJust(text, name)
  {
    forall other | IsCommand(other) && Calls(text, other)
      ensures other == name
    {
      if |name| <= |other| {
        SameStart(text, name, other);
        NoNameStartsAnother(name, other);
      } else {
        SameStart(text, other, name);
        NoNameStartsAnother(other, name);
      }
    }
  }

  lemma WrittenAs(lead: string, written: string, name: string, rest: string)
    requires IsWritten(lead, written, name, rest) && IsCommand(name)
    ensures var content := lead + ("/" + written + rest);
            var text := content[RunEnd(content, 0)..];
            && !IsBlank(content) && Calls(text, name) && text[|name| + 1..] == rest
            && CallsJust(text, name)
  {
    LeadEnds(lead, "/" + written + rest);
    WrittenCalls(written, name, rest);
    OnlyCommand("/" + written + rest, name);
  }

  /** What a model is given of a command, and whether a turn answers it: the text of one that takes
      text; the whole message when it has none or takes none, which no turn answers. */
  lemma CommandMeaning(lead: string, written: string, name: string, rest: string)
    requires IsWritten(lead, written, name, rest) && IsCommand(name)
    ensures var content := lead + ("/" + written + rest);
            && TextForModel(content) == (if TakesText(name) && !IsBlank(rest) then Strip(rest) else content)
            && (IsAnswered(content) <==> TakesText(name) && !IsBlank(rest))
            && (IsPush(content) <==> name == "push")
  {
    WrittenAs(lead, written, name, rest);
    var before, after := StripMeaning(rest);
    GivenByName(lead + ("/" + written + rest), name, rest);
    AnsweredByName(lead + ("/" + written + rest), name, rest);
  }

  lemma GivenByName(content: string, name: string, rest: string)
    requires var text := content[RunEnd(content, 0)..];
             !IsBlank(content) && IsCommand(name) && CallsJust(text, name) && text[|name| + 1..] == rest
    ensures TextForModel(content) == if TakesText(name) then AfterCommand(content, rest) else content
  {
  }

  lemma AnsweredByName(content: string, name: string, rest: string)
    requires var text := content[RunEnd(content, 0)..];
             !IsBlank(content) && IsCommand(name) && CallsJust(text, name) && text[|name| + 1..] == rest
    ensures IsAnswered(content) <==> TakesText(name) && Strip(rest) != ""
  {
    var text := content[RunEnd(content, 0)..];
    if TakesText(name) {
      assert LacksText(text, name) <==> Strip(rest) == "";
    }
  }

  /** Any other message is given without the whitespace around it, and answered unless it is blank. */
  lemma PlainMeaning(content: string)
    requires forall lead, written, name, rest | IsWritten(lead, written, name, rest) && IsCommand(name) ::
               content != lead + ("/" + written + rest)
    ensures TextForModel(content) == if IsBlank(content) then content else Strip(content)
    ensures (IsAnswered(content) <==> !IsBlank(content)) && !IsPush(content)
  {
    var text := content[RunEnd(content, 0)..];
    forall name | IsCommand(name)
      ensures !Calls(text, name)
    {
      NotCalled(content, name);
    }
  }

  lemma NotCalled(content: string, name: string)
    requires forall lead, written, rest | IsWritten(lead, written, name, rest) ::
               content != lead + ("/" + written + rest)
    ensures !Calls(content[RunEnd(content, 0)..], name)
  {
    if Calls(content[RunEnd(content, 0)..], name) {
      var lead, written, rest := CalledAs(content, name);
      assert false;
    }
  }

  lemma CalledAs(content: string, name: string) returns (lead: string, written: string, rest: string)
    requires Calls(content[RunEnd(content, 0)..], name)
    ensures IsWritten(lead, written, name, rest) && content == lead + ("/" + written + rest)
  {
    var end := RunEnd(content, 0);
    lead := content[..end];
    written, rest := CallsIsWritten(content[end..], name);
    forall i | 0 <= i < end
      ensures IsSpace(lead[i])
    {
      RunIsSpace(content, 0, i);
    }
  }
}
