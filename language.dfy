/** Language helpers of src/ui/language.py (repeated word for word in
    run_elegant_v3.py): accent-based French detection, the CJK soft guard
    and the per-turn system instruction. */
module Language {
  import opened Text
  import opened Chat

  /** The regular-expression class `[éèàùâêîôûç]` under `re.I`: the ten
      accented letters and their capitals. */
  predicate IsFrenchAccent(c: char) {
    c in {'é', 'è', 'à', 'ù', 'â', 'ê', 'î', 'ô', 'û', 'ç',
          'É', 'È', 'À', 'Ù', 'Â', 'Ê', 'Î', 'Ô', 'Û', 'Ç'}
  }

  /** Scans for an accent the way `re.search` scans, left to right. */
  function HasFrenchAccent(s: string): (b: bool)
    ensures b <==> exists i :: 0 <= i < |s| && IsFrenchAccent(s[i])
  {
    if s == [] then false
    else if IsFrenchAccent(s[0]) then true
    else
      assert forall i :: 1 <= i < |s| ==> s[i] == s[1..][i - 1];
      HasFrenchAccent(s[1..])
  }

  /** `detect_lang`: "fr" when any accented letter occurs, otherwise "en". */
  function DetectLang(text: string): (lang: string)
    ensures lang == "fr" || lang == "en"
    ensures lang == "fr" <==> exists i :: 0 <= i < |text| && IsFrenchAccent(text[i])
  {
    if HasFrenchAccent(text) then "fr" else "en"
  }

  /** Once French is detected, more text cannot turn the verdict to English. */
  lemma DetectLangMonotone(a: string, b: string)
    requires DetectLang(a) == "fr"
    ensures DetectLang(a + b) == "fr"
  {
    var i :| 0 <= i < |a| && IsFrenchAccent(a[i]);
    assert (a + b)[i] == a[i];
  }

  /** The `re.I` flag makes detection blind to case: lower-casing the text
      first gives the same answer. */
  lemma {:induction false} DetectLangCaseBlind(text: string)
    ensures DetectLang(Lower(text)) == DetectLang(text)
  {
    var low := Lower(text);
    forall i | 0 <= i < |text|
      ensures IsFrenchAccent(low[i]) <==> IsFrenchAccent(text[i])
    {
      var c := text[i];
      assert low[i] == LowerChar(c);
    }
    if DetectLang(text) == "fr" {
      var i :| 0 <= i < |text| && IsFrenchAccent(text[i]);
      assert IsFrenchAccent(low[i]);
    }
    if DetectLang(low) == "fr" {
      var i :| 0 <= i < |low| && IsFrenchAccent(low[i]);
      assert IsFrenchAccent(text[i]);
    }
  }

  /** U+4E00 .. U+9FFF, the CJK Unified Ideographs block. */
  predicate IsCjk(c: char) {
    '\U{4E00}' <= c <= '\U{9FFF}'
  }

  function ContainsCjk(text: string): (b: bool)
    ensures b <==> exists i :: 0 <= i < |text| && IsCjk(text[i])
  {
    if text == [] then false
    else if IsCjk(text[0]) then true
    else
      assert forall i :: 1 <= i < |text| ==> text[i] == text[1..][i - 1];
      ContainsCjk(text[1..])
  }

  lemma {:induction false} ContainsCjkConcat(a: string, b: string)
    ensures ContainsCjk(a + b) <==> ContainsCjk(a) || ContainsCjk(b)
  {
    if ContainsCjk(a + b) {
      var i :| 0 <= i < |a + b| && IsCjk((a + b)[i]);
      if i < |a| { assert a[i] == (a + b)[i]; } else { assert b[i - |a|] == (a + b)[i]; }
    }
    if ContainsCjk(a) {
      var i :| 0 <= i < |a| && IsCjk(a[i]);
      assert (a + b)[i] == a[i];
    }
    if ContainsCjk(b) {
      var i :| 0 <= i < |b| && IsCjk(b[i]);
      assert (a + b)[|a| + i] == b[i];
    }
  }

  /** The notice put in front of a reply that contains CJK characters. */
  function GuardNotice(lang: string): string {
    "> ⚠️ Réponse réécrite (" + (if lang == "fr" then "FR" else "EN") + ") :\n\n"
  }

  lemma GuardNoticeHasNoCjk(lang: string)
    ensures !ContainsCjk(GuardNotice(lang))
  {
  }

  /** `enforce_lang_output`: a soft guard that never alters the reply, it only
      prefixes a notice naming the expected language. */
  function EnforceLangOutput(text: string, lang: string): (r: string)
    ensures !ContainsCjk(text) ==> r == text
    ensures ContainsCjk(text) ==> r == GuardNotice(lang) + text
  {
    if ContainsCjk(text) then GuardNotice(lang) + text else text
  }

  /** The guard leaves a reply alone exactly when it has no CJK character, and
      a flagged reply is recovered by removing the notice. */
  lemma EnforceLangOutputIdentityIff(text: string, lang: string)
    ensures EnforceLangOutput(text, lang) == text <==> !ContainsCjk(text)
    ensures EndsWith(EnforceLangOutput(text, lang), text)
    ensures ContainsCjk(text) ==>
      StartsWith(EnforceLangOutput(text, lang), GuardNotice(lang))
      && RemovePrefix(EnforceLangOutput(text, lang), GuardNotice(lang)) == text
  {
    var r := EnforceLangOutput(text, lang);
    if ContainsCjk(text) {
      assert |r| > |text|;
      assert r[..|GuardNotice(lang)|] == GuardNotice(lang);
      assert r[|r| - |text|..] == text;
    }
  }

  /** Flagging is never undone: applying the guard to its own output flags it
      again, so a second pass adds a second notice. */
  lemma EnforceLangOutputNotIdempotent(text: string, lang: string)
    requires ContainsCjk(text)
    ensures EnforceLangOutput(EnforceLangOutput(text, lang), lang)
            == GuardNotice(lang) + GuardNotice(lang) + text
  {
    ContainsCjkConcat(GuardNotice(lang), text);
  }

  const FrenchInstruction: string :=
    "Réponds STRICTEMENT en français. Ne réponds jamais dans une autre langue. Formate toujours en Markdown."
  const EnglishInstruction: string :=
    "Answer STRICTLY in English. Never use any other language. Always format in Markdown."

  /** The instruction text; any language other than "fr" gets the English one. */
  function LangInstruction(lang: string): (s: string)
    ensures lang == "fr" ==> s == FrenchInstruction
    ensures lang != "fr" ==> s == EnglishInstruction
  {
    if lang == "fr" then FrenchInstruction else EnglishInstruction
  }

  /** `enforce_lang_ephemeral_system`: appends exactly one system message. */
  method EnforceLangEphemeralSystem(state: ChatState, lang: string)
    modifies state
    ensures state.messages == old(state.messages) + [Message(System, LangInstruction(lang))]
  {
    var l := lang;
    if l != "fr" && l != "en" {
      l := "en";
    }
    state.messages := state.messages + [Message(System, LangInstruction(l))];
  }

  /** The language chosen for a turn: the preference when it is "fr" or "en",
      otherwise the detected one; either way "fr" or "en". */
  function TurnLanguage(langPref: string, userMessage: string): (lang: string)
    ensures lang == "fr" || lang == "en"
    ensures langPref == "fr" || langPref == "en" ==> lang == langPref
    ensures langPref != "fr" && langPref != "en" ==> lang == DetectLang(userMessage)
  {
    if langPref == "fr" || langPref == "en" then langPref else DetectLang(userMessage)
  }
}
