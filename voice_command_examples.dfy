/**
 * Transcripts run through the command cascade: letters-only remove and clear-all commands are
 * taken by the catch-all as items to add before the remove and clear-all tests are reached.
 */
module VoiceCommandExamples {
  import opened Wrappers
  import opened Text
  import opened Patterns
  import opened VoiceCommands

  /** The filler-stripped phrase of a command whose first character starts no filler word and
      is not white space is not empty. */
  lemma KeepsFirstChar(s: string)
    requires |s| >= 2 && !IsSpace(s[0])
    requires forall k :: 0 <= k < |Fillers| ==> Fillers[k] != [] && (Fillers[k][0] != s[0] || (|Fillers[k]| >= 2 && Fillers[k][1] != s[1]))
    ensures Trim(StripWords(s, Fillers)) != []
  {
    forall k | 0 <= k < |Fillers| ensures !OccursAt(s, Fillers[k], 0) {
    }
    StripKeepsHead(s, Fillers);
    TrimEmptyIff(StripWords(s, Fillers));
  }

  /** A command that lower-cases and trims to a letters-only phrase keeping a word after the
      fillers is an add intent. */
  lemma AddedWhenTrimmedTo(command: string, lc: string)
    requires Trim(Lower(command)) == lc
    requires lc != [] && LettersAndSpaces(lc) && Trim(StripWords(lc, Fillers)) != []
    ensures Interpret(command).AddIntent?
  {
    LettersOnlyCommandIsAdd(command);
  }

  /** The transcript "Remove milk" lower-cases and trims to "remove milk". */
  lemma RemoveMilkLowered()
    ensures Trim(Lower("Remove milk")) == "remove milk"
  {
    assert Lower("Remove milk") == "remove milk";
    TrimNoop("remove milk");
  }

  lemma RemoveMilkLetters()
    ensures LettersAndSpaces("remove milk")
  {
  }

  lemma RemoveMilkPhrase()
    ensures Trim(StripWords("remove milk", Fillers)) != []
  {
    KeepsFirstChar("remove milk");
  }

  /** "Remove milk", in any letter case and with any surrounding white space, is an add intent:
      the catch-all takes it before the remove templates. */
  lemma RemoveMilkIsAdded(command: string)
    requires Trim(Lower(command)) == "remove milk"
    ensures Interpret(command).AddIntent?
  {
    RemoveMilkLetters();
    RemoveMilkPhrase();
    AddedWhenTrimmedTo(command, "remove milk");
  }

  lemma ClearAllLetters()
    ensures LettersAndSpaces("clear all")
  {
  }

  lemma ClearAllPhrase()
    ensures Trim(StripWords("clear all", Fillers)) != []
  {
    KeepsFirstChar("clear all");
  }

  /** "clear all", in any letter case and with any surrounding white space, is an add intent
      too: the clear-all test is never reached. */
  lemma ClearAllIsAdded(command: string)
    requires Trim(Lower(command)) == "clear all"
    ensures Interpret(command).AddIntent?
  {
    ClearAllLetters();
    ClearAllPhrase();
    AddedWhenTrimmedTo(command, "clear all");
  }
}
