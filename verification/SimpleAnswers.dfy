/** Which answers approve the calls a run waits with, and which tools must be confirmed, spelled out. */
module SimpleAnswers {
  import opened Basics
  import opened Trace
  import opened SimpleSpec

  // ----- approval --------------------------------------------------------------------------

  /** The words that approve. */
  predicate ApprovalWord(word: string) {
    || word == "yes" || word == "y" || word == "ok" || word == "oui" || word == "o"
    || word == "approve" || word == "approved" || word == "confirm"
  }

  /** A character that reads as this small letter when case is ignored: the letter, its capital, or the Kelvin sign. */
  predicate ReadsAs(c: char, letter: char) {
    || c == letter
    || ('a' <= letter <= 'z' && c as int + 32 == letter as int)
    || (letter == 'k' && c == '\U{212A}')
  }

  predicate InAnyCase(written: string, word: string) {
    |written| == |word| && forall i :: 0 <= i < |word| ==> ReadsAs(written[i], word[i])
  }

  predicate Approving(written: string, word: string) {
    ApprovalWord(word) && InAnyCase(written, word)
  }

  /** White space, one of the words in any case, white space. */
  ghost predicate Approves(text: string) {
    exists before: string, written: string, after: string, word: string ::
      text == before + written + after && AllSpace(before) && AllSpace(after) && Approving(written, word)
  }

  lemma {:induction false} LowerReads(s: string)
    ensures |Lower(s)| == |s| && forall i :: 0 <= i < |s| ==> Lower(s)[i] == LowerChar(s[i])
  {
    if s != "" {
      LowerReads(s[1..]);
      forall i | 0 <= i < |s| ensures Lower(s)[i] == LowerChar(s[i]) {
        if i > 0 {
          assert Lower(s)[i] == Lower(s[1..])[i - 1] && s[i] == s[1..][i - 1];
        }
      }
    }
  }

  lemma LowerCharReads(c: char, letter: char)
    requires 'a' <= letter <= 'z'
    ensures LowerChar(c) == letter <==> ReadsAs(c, letter)
  {
  }

  lemma WordLetters(word: string)
    requires ApprovalWord(word)
    ensures word != "" && forall i :: 0 <= i < |word| ==> 'a' <= word[i] <= 'z'
  {
  }

  lemma LowerIs(written: string, word: string)
    requires ApprovalWord(word)
    ensures Lower(written) == word <==> InAnyCase(written, word)
  {
    LowerReads(written);
    WordLetters(word);
    if |written| == |word| {
      forall i | 0 <= i < |word| ensures Lower(written)[i] == word[i] <==> ReadsAs(written[i], word[i]) {
        LowerCharReads(written[i], word[i]);
      }
    }
  }

  lemma CasedIsTight(written: string, word: string)
    requires Approving(written, word)
    ensures Tight(written)
  {
    WordLetters(word);
    assert ReadsAs(written[0], word[0]) && ReadsAs(written[|written| - 1], word[|word| - 1]);
  }

  lemma ApprovingText(before: string, written: string, after: string, word: string)
    requires AllSpace(before) && AllSpace(after) && Approving(written, word)
    ensures IsApproval(before + written + after)
  {
    CasedIsTight(written, word);
    TrimIsStrip(before, written, after);
    LowerIs(written, word);
  }

  /** `_is_approval` says yes to exactly these texts. */
  lemma ApprovalSpelled(text: string)
    ensures IsApproval(text) <==> Approves(text)
  {
    if IsApproval(text) {
      StripTrims(text);
      var before: string, after: string :| AllSpace(before) && AllSpace(after) && text == before + Strip(text) + after;
      LowerIs(Strip(text), Lower(Strip(text)));
      assert Approving(Strip(text), Lower(Strip(text)));
    }
    if Approves(text) {
      var before: string, written: string, after: string, word: string :|
        text == before + written + after && AllSpace(before) && AllSpace(after) && Approving(written, word);
      ApprovingText(before, written, after, word);
    }
  }

  // ----- confirmation ----------------------------------------------------------------------

  /** A value that counts as set. */
  predicate CountsAsSet(v: Json) {
    || v == JBool(true) || (v.JInt? && v.n != 0) || (v.JReal? && v.x != 0.0)
    || (v.JStr? && v.s != "") || (v.JArr? && v.items != []) || (v.JObj? && v.fields != map[])
  }

  /** The descriptor is an object whose `annotations` are an object whose `destructiveHint` is set. */
  predicate CarriesHint(descriptor: Json) {
    && descriptor.JObj? && "annotations" in descriptor.fields && descriptor.fields["annotations"].JObj?
    && "destructiveHint" in descriptor.fields["annotations"].fields
    && CountsAsSet(descriptor.fields["annotations"].fields["destructiveHint"])
  }

  /** `needs_confirmation` says yes to exactly these descriptors. */
  lemma ConfirmationSpelled(descriptor: Json)
    ensures NeedsConfirmation(descriptor) <==> CarriesHint(descriptor)
  {
  }

  /** The call names a tool whose descriptor carries the destructive hint. */
  predicate MustBeConfirmed(w: World, call: ToolCall) {
    w.lookup(call.name).Some? && CarriesHint(w.lookup(call.name).value.descriptor)
  }

  lemma DestructiveSpelled(w: World)
    ensures forall call: ToolCall :: Destructive(w, call) <==> MustBeConfirmed(w, call)
  {
    forall call: ToolCall ensures Destructive(w, call) <==> MustBeConfirmed(w, call) {
      if w.lookup(call.name).Some? {
        ConfirmationSpelled(w.lookup(call.name).value.descriptor);
      }
    }
  }
}
