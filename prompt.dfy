/** The system prompt sent to the generator (app.py:26-55): a fixed persona text, a heading, and
    the retrieved context spliced in verbatim. */
module Prompt {
  import opened Wrappers
  import opened Text

  /** The persona and rules text, line by line, as the prompt template writes it. */
  const PersonaLines: seq<string> := [
    "Jsi osobní AI trenér běžeckého lyžování. Tvým klientem je mladý výkonnostní sportovec, který:",
    "- má 18 let a je v první sezóně v juniorské kategorii",
    "- věnuje se běžeckému lyžování, orientačnímu běhu a ski orienťáku",
    "- aktuálně rozvíjí VO2max, rychlost a sprintové schopnosti",
    "- technicky mu více sedí klasika než bruslení",
    "- klidový tep sleduje jako indikátor regenerace, běžně se pohybuju 45 až 50, 55 a víc už není dobré",
    "- školní dny ho vyčerpávají více než trénink",
    "- nejlepší výkony podává po vyšším objemu tréninku",
    "",
    "Tvým úkolem je:",
    "Na základě záznamů o tréninku za posledních 5 dní a poznámek navrhnout, co má sportovec trénovat **dnes**.",
    "",
    "Zohledni:",
    "- rozdělení intenzit (I1–I5)",
    "- čas, vzdálenost, poznámky a únavu",
    "- potřebu střídání těžkých a lehkých dnů",
    "- aktuální regeneraci podle poznámek a HR",
    "- VO2max, sprintové zaměření",
    "neboj se dát rest",
    "",
    "Výstup:",
    "Napiš pouze jednoduchý plán, například:",
    "V - klus i2 45' + 3×100, na vyklepání nohou",
    "",
    "Dodej lehké vysvětlení"
  ]

  /** The line after which the retrieved context is inserted. */
  const ContextHeading: string := "Kontext tréninků:"

  /** Everything the template writes before the context, for a given persona text: an empty
      first line, the persona, an empty line and the heading, each line terminated. */
  function HeadFor(persona: seq<string>): string {
    [Newline] + Join(persona) + [Newline] + [Newline] + ContextHeading + [Newline]
  }

  /** The template's prefix with the actual persona. */
  function Head(): string {
    HeadFor(PersonaLines)
  }

  /** Substitutes a context after a prefix; one newline closes the text. */
  function Fill(head: string, context: string): string {
    head + context + [Newline]
  }

  /** The f-string of the template with the retrieved context substituted. */
  function SystemPrompt(context: string): string {
    Fill(Head(), context)
  }

  /** The template filled in with a context, as a value: the generator is handed its text. */
  datatype Filled = Filled(context: string)

  /** The text of a filled-in template, the string passed to the generator. */
  function TextOf(p: Filled): string {
    SystemPrompt(p.context)
  }

  /** Reads the context back out of a text filled in after the given prefix, if it is one. */
  function Unfill(head: string, text: string): (r: Option<string>)
    ensures r.Some? ==> |head| + |r.value| + 1 == |text|
  {
    if |text| > |head| && text[..|head|] == head && text[|text| - 1] == Newline
    then Some(text[|head|..|text| - 1])
    else None
  }

  /** Reads the context back out of a system prompt. */
  function ContextIn(prompt: string): Option<string> {
    Unfill(Head(), prompt)
  }

  /** Filling in a context is undone by reading it back, for any prefix. */
  lemma UnfillFill(head: string, context: string)
    ensures Unfill(head, Fill(head, context)) == Some(context)
  {
    var text := Fill(head, context);
    assert text[..|head|] == head;
    assert text[|head|..|text| - 1] == context;
  }

  /** Reading back is exact: a text is recognised only if it is the filled-in form of what is read. */
  lemma FillUnfill(head: string, text: string)
    requires Unfill(head, text).Some?
    ensures Fill(head, Unfill(head, text).value) == text
  {
    var c := Unfill(head, text).value;
    assert text == text[..|head|] + text[|head|..|text| - 1] + [text[|text| - 1]];
  }

  /** The context is spliced into the system prompt verbatim and can be read back exactly. */
  lemma ContextRoundTrip(context: string)
    ensures ContextIn(SystemPrompt(context)) == Some(context)
  {
    UnfillFill(Head(), context);
  }

  /** A filled-in template is determined by its text: handing the generator the text or the
      value is the same. */
  lemma TextDeterminesPrompt(p1: Filled, p2: Filled)
    requires TextOf(p1) == TextOf(p2)
    ensures p1 == p2
  {
    ContextRoundTrip(p1.context);
    ContextRoundTrip(p2.context);
  }

  /** The tail of the template: an empty line, a heading line, then a terminated context. */
  lemma TailLines(heading: string, context: string)
    requires NewlineFree(heading)
    ensures Split("" + [Newline] + (heading + [Newline] + (context + [Newline] + ""))) ==
      [""] + ([heading] + (Split(context) + [""]))
  {
    var last := context + [Newline] + "";
    var line := heading + [Newline] + last;
    assert Split("") == [""];
    NewlineFreeSplit(heading);
    SplitAtNewline(context, "");
    SplitAtNewline(heading, last);
    SplitAtNewline("", line);
  }

  /** The template's text, regrouped newline by newline from the right. */
  lemma Regroup(text: string, heading: string, context: string)
    ensures [Newline] + text + [Newline] + [Newline] + heading + [Newline] + context + [Newline] ==
      "" + [Newline] + (text + [Newline] + ("" + [Newline] + (heading + [Newline] + (context + [Newline] + ""))))
  {
  }

  /** Line by line, a filled template is an empty line, the persona's pieces, an empty line, the
      heading, then the lines of the context exactly as they are, and an empty piece after the
      final newline. */
  lemma FilledLines(persona: seq<string>, context: string)
    ensures Split(Fill(HeadFor(persona), context)) ==
      [""] + (Split(Join(persona)) + ([""] + ([ContextHeading] + (Split(context) + [""]))))
  {
    var text := Join(persona);
    var gap := "" + [Newline] + (ContextHeading + [Newline] + (context + [Newline] + ""));
    assert NewlineFree(ContextHeading);
    TailLines(ContextHeading, context);
    assert Split("") == [""];
    SplitAtNewline(text, gap);
    SplitAtNewline("", text + [Newline] + gap);
    Regroup(text, ContextHeading, context);
  }

  /** The system prompt's lines: the context starts on the line right after the heading and runs,
      unchanged, up to the final newline. */
  lemma PromptLines(context: string)
    ensures Split(SystemPrompt(context)) ==
      [""] + (Split(Join(PersonaLines)) + ([""] + ([ContextHeading] + (Split(context) + [""]))))
  {
    FilledLines(PersonaLines, context);
  }
}
