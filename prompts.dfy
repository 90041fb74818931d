/**
 * The system prompt of the live model: a fixed base instruction, the
 * mandatory tool workflow, one line per catalogue field and the
 * validation rules.
 */
module Prompts {
  import opened Fields

  /** `t` occurs in `s` starting at index `i`. */
  predicate OccursAt(s: string, t: string, i: int) {
    0 <= i <= |s| - |t| && s[i..i + |t|] == t
  }

  /** `t in s`: `s` holds `t` as a contiguous piece. */
  ghost predicate Contains(s: string, t: string) {
    exists i :: OccursAt(s, t, i)
  }

  lemma ContainsSelf(t: string)
    ensures Contains(t, t)
  {
    assert OccursAt(t, t, 0);
  }

  lemma ContainsLeft(s: string, t: string, b: string)
    requires Contains(s, t)
    ensures Contains(s + b, t)
  {
    var i :| OccursAt(s, t, i);
    assert (s + b)[i..i + |t|] == s[i..i + |t|];
    assert OccursAt(s + b, t, i);
  }

  lemma ContainsRight(a: string, s: string, t: string)
    requires Contains(s, t)
    ensures Contains(a + s, t)
  {
    var i :| OccursAt(s, t, i);
    assert (a + s)[|a| + i..|a| + i + |t|] == s[i..i + |t|];
    assert OccursAt(a + s, t, |a| + i);
  }

  /** A piece occurring in a longer one occurs wherever that one does. */
  lemma ContainsTrans(s: string, u: string, t: string)
    requires Contains(s, u) && Contains(u, t)
    ensures Contains(s, t)
  {
    var i :| OccursAt(s, u, i);
    var j :| OccursAt(u, t, j);
    forall k | 0 <= k < |t|
      ensures s[i + j + k] == t[k]
    {
      assert t[k] == u[j..j + |t|][k] == u[j + k] == s[i..i + |u|][j + k];
    }
    assert s[i + j..i + j + |t|] == t;
    assert OccursAt(s, t, i + j);
  }

  /** The pieces concatenated left to right. */
  function ConcatAll(pieces: seq<string>): string
    decreases |pieces|
  {
    if pieces == [] then "" else ConcatAll(pieces[..|pieces| - 1]) + pieces[|pieces| - 1]
  }

  lemma {:induction false} PieceInConcat(pieces: seq<string>, k: nat)
    requires k < |pieces|
    ensures Contains(ConcatAll(pieces), pieces[k])
    decreases |pieces|
  {
    var init := pieces[..|pieces| - 1];
    if k == |pieces| - 1 {
      ContainsSelf(pieces[k]);
      ContainsRight(ConcatAll(init), pieces[k], pieces[k]);
    } else {
      PieceInConcat(init, k);
      assert init[k] == pieces[k];
      ContainsLeft(ConcatAll(init), pieces[k], pieces[|pieces| - 1]);
    }
  }

  const SYSTEM_PROMPT_BASE: string :=
    "You are a helpful assistant guiding a user through completing a form.\n"
    + "Always follow this loop: welcome -> get_next_form_field -> explain field -> "
    + "collect user reply -> validate_form_field -> if invalid, explain and ask again; "
    + "if valid, save_form_field and give validation to user -> get_next_form_field -> repeat until done.\n"
    + "Speak concisely, one question at a time. Reflect validation errors back with a short reason. "
    + "Use the tools provided to get and save form fields. And ensure a good user experience.\n"
    + "Welcome the user directly without waiting for them to say hello first.\n"

  const MANDATORY_WORKFLOW: string := "MANDATORY WORKFLOW"
  const CURRENT_FIELD: string := "CURRENT field"
  const NO_FIELD_ID: string := "Do NOT pass field_id"
  const VALIDATION_RULES: string := "Validation rules"
  const DATE_FORMAT: string := "DD.MM.YYYY"
  const GENERATE_PDF: string := "generate_anmeldung_pdf"

  /** The workflow section, up to the field list, cut at the phrases it must contain. */
  const WORKFLOW_PIECES: seq<string> := [
    "\n=== ",
    MANDATORY_WORKFLOW,
    " ===\n"
    + "You MUST follow this exact sequence for every field:\n"
    + "1. Call get_next_form_field() to retrieve the ",
    CURRENT_FIELD,
    " and its details\n"
    + "2. Extract the value from user input\n"
    + "3. Call validate_form_field(value) with the CURRENT field's value\n"
    + "4. If valid, call save_form_field(value) to save and advance\n"
    + "5. If invalid, explain the error and ask user to correct\n"
    + "6. Repeat for next field\n"
    + "\nIMPORTANT: validate_form_field and save_form_field operate on the CURRENT field.\n",
    NO_FIELD_ID,
    " - it will be inferred from get_next_form_field.\n"
    + "\nAll required fields to collect:\n"
  ]

  /** The rules section after the field list, cut at the phrases it must contain. */
  const RULES_PIECES: seq<string> := [
    "\n\n",
    VALIDATION_RULES,
    ":\n"
    + "- Dates must be in ",
    DATE_FORMAT,
    " format\n"
    + "- Postal codes are 4-5 German digits\n"
    + "- Choice fields require the numeric index (e.g., 0, 1, 2)\n"
    + "- All fields are required for form completion\n"
    + "\nWhen all fields are collected and validated, call ",
    GENERATE_PDF,
    " to create the final form."
  ]

  /** `f"- {f.label}: {f.description}"`. */
  function FieldLine(f: AnmeldungField): string {
    "- " + f.fieldLabel + ": " + f.description
  }

  /** `"\n".join(lines)`. */
  function JoinLines(lines: seq<string>): string
    decreases |lines|
  {
    if lines == [] then ""
    else if |lines| == 1 then lines[0]
    else JoinLines(lines[..|lines| - 1]) + "\n" + lines[|lines| - 1]
  }

  function FieldLines(fields: seq<AnmeldungField>): (lines: seq<string>)
    ensures |lines| == |fields| && forall i :: 0 <= i < |fields| ==> lines[i] == FieldLine(fields[i])
  {
    seq(|fields|, i requires 0 <= i < |fields| => FieldLine(fields[i]))
  }

  /**
   * The prompt for a field list: base, workflow, one line per field, rules.
   * It opens with the base instruction, carries the workflow's and the
   * rules' key phrases, and lists every field's line, each followed by the
   * next field's line.
   */
  function BuildPrompt(fields: seq<AnmeldungField>): (r: string)
    ensures |r| >= |SYSTEM_PROMPT_BASE| && r[..|SYSTEM_PROMPT_BASE|] == SYSTEM_PROMPT_BASE
    ensures Contains(r, MANDATORY_WORKFLOW) && Contains(r, CURRENT_FIELD) && Contains(r, NO_FIELD_ID)
    ensures Contains(r, VALIDATION_RULES) && Contains(r, DATE_FORMAT) && Contains(r, GENERATE_PDF)
    ensures forall i :: 0 <= i < |fields| ==> Contains(r, FieldLine(fields[i]))
    ensures forall i :: 0 <= i < |fields| - 1 ==> Contains(r, FieldLine(fields[i]) + "\n" + FieldLine(fields[i + 1]))
  {
    var lines := FieldLines(fields);
    var w, ft, rules := ConcatAll(WORKFLOW_PIECES), JoinLines(lines), ConcatAll(RULES_PIECES);
    var r := Assemble(SYSTEM_PROMPT_BASE, w, ft, rules);
    AssembledParts(SYSTEM_PROMPT_BASE, w, ft, rules, "");
    WorkflowPhrases(SYSTEM_PROMPT_BASE, ft, rules);
    RulesPhrases(SYSTEM_PROMPT_BASE, w, ft);
    LinesInAssembly(SYSTEM_PROMPT_BASE, w, lines, rules);
    r
  }

  function Assemble(base: string, workflow: string, fieldsText: string, rules: string): string {
    base + workflow + fieldsText + rules
  }

  /** `build_system_prompt()`: the prompt for the catalogue, which names every catalogue field. */
  function BuildSystemPrompt(): (r: string)
    ensures |r| >= |SYSTEM_PROMPT_BASE| && r[..|SYSTEM_PROMPT_BASE|] == SYSTEM_PROMPT_BASE
    ensures forall f :: f in Fields.ANMELDUNG_FORM_FIELDS ==> Contains(r, FieldLine(f))
  {
    BuildPrompt(Fields.ANMELDUNG_FORM_FIELDS)
  }

  /** The assembled prompt opens with its base and holds every phrase of its other parts. */
  lemma AssembledParts(base: string, workflow: string, fieldsText: string, rules: string, t: string)
    ensures |Assemble(base, workflow, fieldsText, rules)| >= |base|
    ensures Assemble(base, workflow, fieldsText, rules)[..|base|] == base
    ensures Contains(workflow, t) || Contains(fieldsText, t) || Contains(rules, t) ==>
      Contains(Assemble(base, workflow, fieldsText, rules), t)
  {
    var r := Assemble(base, workflow, fieldsText, rules);
    assert r == base + (workflow + fieldsText + rules);
    if Contains(workflow, t) {
      ContainsLeft(workflow, t, fieldsText);
      ContainsLeft(workflow + fieldsText, t, rules);
      ContainsRight(base, workflow + fieldsText + rules, t);
    } else if Contains(fieldsText, t) {
      ContainsRight(workflow, fieldsText, t);
      ContainsLeft(workflow + fieldsText, t, rules);
      ContainsRight(base, workflow + fieldsText + rules, t);
    } else if Contains(rules, t) {
      ContainsRight(workflow + fieldsText, rules, t);
      ContainsRight(base, workflow + fieldsText + rules, t);
    }
  }

  /**
   * The joined list holds line `i` followed, after one newline, by line
   * `i + 1`: the lines appear in list order.
   */
  lemma {:induction false} LinesInOrder(lines: seq<string>, i: nat)
    requires i + 1 < |lines|
    ensures Contains(JoinLines(lines), lines[i] + "\n" + lines[i + 1])
    decreases |lines|
  {
    var init := lines[..|lines| - 1];
    var pair := lines[i] + "\n" + lines[i + 1];
    ContainsSelf(pair);
    if i + 2 == |lines| {
      if |init| == 1 {
        assert JoinLines(init) == lines[0];
        assert JoinLines(lines) == pair;
      } else {
        var a := JoinLines(init[..|init| - 1]);
        assert init[..|init| - 1] == lines[..i];
        assert JoinLines(lines) == (a + "\n") + pair;
        ContainsRight(a + "\n", pair, pair);
      }
    } else {
      LinesInOrder(init, i);
      assert init[i] == lines[i] && init[i + 1] == lines[i + 1];
      ContainsLeft(JoinLines(init), pair, "\n" + lines[|lines| - 1]);
      assert JoinLines(lines) == JoinLines(init) + ("\n" + lines[|lines| - 1]);
    }
  }

  /** Every line of the list appears in the joined text. */
  lemma {:induction false} LineInJoin(lines: seq<string>, i: nat)
    requires i < |lines|
    ensures Contains(JoinLines(lines), lines[i])
  {
    ContainsSelf(lines[i]);
    if |lines| == 1 {
      assert JoinLines(lines) == lines[i];
    } else if i + 1 < |lines| {
      var pair := lines[i] + "\n" + lines[i + 1];
      LinesInOrder(lines, i);
      ContainsLeft(lines[i], lines[i], "\n" + lines[i + 1]);
      assert lines[i] + ("\n" + lines[i + 1]) == pair;
      ContainsTrans(JoinLines(lines), pair, lines[i]);
    } else {
      var pair := lines[i - 1] + "\n" + lines[i];
      LinesInOrder(lines, i - 1);
      ContainsRight(lines[i - 1] + "\n", lines[i], lines[i]);
      ContainsTrans(JoinLines(lines), pair, lines[i]);
    }
  }

  /** Every line, and every line followed by its successor, occurs in the assembled prompt. */
  lemma LinesInAssembly(base: string, workflow: string, lines: seq<string>, rules: string)
    ensures forall i :: 0 <= i < |lines| ==> Contains(Assemble(base, workflow, JoinLines(lines), rules), lines[i])
    ensures forall i :: 0 <= i < |lines| - 1 ==>
      Contains(Assemble(base, workflow, JoinLines(lines), rules), lines[i] + "\n" + lines[i + 1])
  {
    var ft := JoinLines(lines);
    forall i | 0 <= i < |lines|
      ensures Contains(Assemble(base, workflow, ft, rules), lines[i])
    {
      LineInJoin(lines, i);
      AssembledParts(base, workflow, ft, rules, lines[i]);
    }
    forall i | 0 <= i < |lines| - 1
      ensures Contains(Assemble(base, workflow, ft, rules), lines[i] + "\n" + lines[i + 1])
    {
      LinesInOrder(lines, i);
      AssembledParts(base, workflow, ft, rules, lines[i] + "\n" + lines[i + 1]);
    }
  }

  /** The workflow demands: the mandatory workflow, the CURRENT field, and no field_id argument. */
  lemma WorkflowPhrases(base: string, fieldsText: string, rules: string)
    ensures var r := Assemble(base, ConcatAll(WORKFLOW_PIECES), fieldsText, rules);
      Contains(r, MANDATORY_WORKFLOW) && Contains(r, CURRENT_FIELD) && Contains(r, NO_FIELD_ID)
  {
    var w := ConcatAll(WORKFLOW_PIECES);
    PieceInConcat(WORKFLOW_PIECES, 1);
    AssembledParts(base, w, fieldsText, rules, MANDATORY_WORKFLOW);
    PieceInConcat(WORKFLOW_PIECES, 3);
    AssembledParts(base, w, fieldsText, rules, CURRENT_FIELD);
    PieceInConcat(WORKFLOW_PIECES, 5);
    AssembledParts(base, w, fieldsText, rules, NO_FIELD_ID);
  }

  /** The rules name the date format and the final `generate_anmeldung_pdf` call. */
  lemma RulesPhrases(base: string, workflow: string, fieldsText: string)
    ensures var r := Assemble(base, workflow, fieldsText, ConcatAll(RULES_PIECES));
      Contains(r, VALIDATION_RULES) && Contains(r, DATE_FORMAT) && Contains(r, GENERATE_PDF)
  {
    var rules := ConcatAll(RULES_PIECES);
    PieceInConcat(RULES_PIECES, 1);
    AssembledParts(base, workflow, fieldsText, rules, VALIDATION_RULES);
    PieceInConcat(RULES_PIECES, 3);
    AssembledParts(base, workflow, fieldsText, rules, DATE_FORMAT);
    PieceInConcat(RULES_PIECES, 5);
    AssembledParts(base, workflow, fieldsText, rules, GENERATE_PDF);
  }
}
