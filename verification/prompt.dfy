/** `PromptTemplate`, `PromptManager` and `DynamicPromptGenerator`: templates
    with `{name}` placeholders, a registry of named templates, and the QA prompt
    built from the default registry.

    `re.findall(r'\{([^}]+)\}', template)` is written out as a left-to-right
    scanner. Filling in a template is modelled as replacing each placeholder the
    scanner finds by its value, which is what `str.format` does for placeholders
    that are plain names.
 */
module Prompt {
  import opened Wrappers
  import opened Text

  // ----- the placeholder scanner ---------------------------------------------

  /** The first `}` at or after position `i`. */
  function Close(s: string, i: nat): (r: Option<nat>)
    requires i <= |s|
    ensures r.Some? ==> i <= r.value < |s| && s[r.value] == '}'
    ensures r.Some? ==> forall m :: i <= m < r.value ==> s[m] != '}'
    ensures r.None? ==> forall m :: i <= m < |s| ==> s[m] != '}'
    decreases |s| - i
  {
    if i == |s| then None
    else if s[i] == '}' then Some(i)
    else Close(s, i + 1)
  }

  /** The placeholder starting at the head of `s`, if there is one: `{`, then one
      or more characters other than `}`, then `}`. The result is the index of the
      closing brace. */
  function Placeholder(s: string): (r: Option<nat>)
    ensures r.Some? ==> 1 < r.value < |s| && s[0] == '{' && s[r.value] == '}'
    ensures r.Some? ==> forall m :: 1 <= m < r.value ==> s[m] != '}'
  {
    if |s| == 0 || s[0] != '{' then None
    else
      match Close(s, 1)
      case Some(k) => if k > 1 then Some(k) else None
      case None => None
  }

  /** `_extract_variables(template)`: the non-overlapping placeholder names, left
      to right, duplicates kept. A `{` that starts no placeholder is skipped as text. */
  function Extract(s: string): (r: seq<string>)
    ensures forall k :: 0 <= k < |r| ==> |r[k]| > 0 && '}' !in r[k]
    decreases |s|
  {
    if |s| == 0 then []
    else
      match Placeholder(s)
      case Some(k) =>
        assert forall m :: 0 <= m < k - 1 ==> s[1..k][m] == s[m + 1];
        [s[1..k]] + Extract(s[k + 1..])
      case None => Extract(s[1..])
  }

  /** A template as literal text and placeholders. */
  datatype Part = Lit(text: string) | Var(name: string)

  /** A literal contains no `{`; a placeholder name is non-empty and has no `}`. */
  predicate PartOk(p: Part)
  {
    match p
    case Lit(t) => '{' !in t
    case Var(n) => |n| > 0 && '}' !in n
  }

  predicate PartsOk(parts: seq<Part>)
  {
    forall j :: 0 <= j < |parts| ==> PartOk(parts[j])
  }

  /** The template text the parts spell. */
  function Render(parts: seq<Part>): string
  {
    if |parts| == 0 then ""
    else
      (match parts[0] case Lit(t) => t case Var(n) => "{" + n + "}") + Render(parts[1..])
  }

  /** The placeholder names among the parts, in order. */
  function Names(parts: seq<Part>): seq<string>
  {
    if |parts| == 0 then []
    else (if parts[0].Var? then [parts[0].name] else []) + Names(parts[1..])
  }

  /** Text without `{` contributes no placeholder. */
  lemma {:induction false} ExtractLiteral(lit: string, rest: string)
    requires '{' !in lit
    ensures Extract(lit + rest) == Extract(rest)
    decreases |lit|
  {
    var s := lit + rest;
    if |lit| > 0 {
      assert s[0] == lit[0];
      assert Placeholder(s) == None;
      assert s[1..] == lit[1..] + rest;
      ExtractLiteral(lit[1..], rest);
    } else {
      assert s == rest;
    }
  }

  /** A well-formed placeholder is found whole, and scanning resumes after it. */
  lemma ExtractPlaceholder(name: string, rest: string)
    requires |name| > 0 && '}' !in name
    ensures Extract("{" + name + "}" + rest) == [name] + Extract(rest)
  {
    var s := "{" + name + "}" + rest;
    var k := |name| + 1;
    assert s[k] == '}';
    forall m | 1 <= m < k ensures s[m] != '}' {
      assert s[m] == name[m - 1];
    }
    assert Close(s, 1) == Some(k) by {
      CloseFirst(s, 1, k);
    }
    assert s[1..k] == name;
    assert s[k + 1..] == rest;
  }

  lemma {:induction false} CloseFirst(s: string, i: nat, k: nat)
    requires i <= k < |s| && s[k] == '}'
    requires forall m :: i <= m < k ==> s[m] != '}'
    ensures Close(s, i) == Some(k)
    decreases k - i
  {
    if i < k {
      CloseFirst(s, i + 1, k);
    }
  }

  /** The scanner reads back exactly the placeholders a template was written with. */
  lemma {:induction false} ExtractRender(parts: seq<Part>)
    requires PartsOk(parts)
    ensures Extract(Render(parts)) == Names(parts)
    decreases |parts|
  {
    if |parts| > 0 {
      assert PartOk(parts[0]);
      assert PartsOk(parts[1..]) by {
        forall j | 0 <= j < |parts| - 1 ensures PartOk(parts[1..][j]) {
          assert parts[1..][j] == parts[j + 1];
        }
      }
      ExtractRender(parts[1..]);
      match parts[0]
      case Lit(t) =>
        ExtractLiteral(t, Render(parts[1..]));
      case Var(n) =>
        ExtractPlaceholder(n, Render(parts[1..]));
    }
  }

  /** A template without braces has no variables. */
  lemma BraceFree(s: string)
    requires '{' !in s
    ensures Extract(s) == []
  {
    ExtractLiteral(s, "");
    assert s + "" == s;
  }

  // ----- filling in a template -------------------------------------------------

  /** Each placeholder the scanner finds replaced by its value; a placeholder
      with no value is left as written. */
  function Substitute(s: string, values: map<string, string>): (r: string)
    ensures '{' !in s ==> r == s
    ensures values == map[] ==> r == s
    decreases |s|
  {
    if |s| == 0 then ""
    else
      match Placeholder(s)
      case Some(k) =>
        (if s[1..k] in values then values[s[1..k]] else s[..k + 1]) + Substitute(s[k + 1..], values)
      case None => [s[0]] + Substitute(s[1..], values)
  }

  /** The text the parts spell once every placeholder with a value is filled in. */
  function RenderWith(parts: seq<Part>, values: map<string, string>): string
  {
    if |parts| == 0 then ""
    else
      (match parts[0]
       case Lit(t) => t
       case Var(n) => if n in values then values[n] else "{" + n + "}")
      + RenderWith(parts[1..], values)
  }

  lemma {:induction false} SubstituteLiteral(lit: string, rest: string, values: map<string, string>)
    requires '{' !in lit
    ensures Substitute(lit + rest, values) == lit + Substitute(rest, values)
    decreases |lit|
  {
    var s := lit + rest;
    if |lit| > 0 {
      assert s[0] == lit[0];
      assert Placeholder(s) == None;
      assert s[1..] == lit[1..] + rest;
      SubstituteLiteral(lit[1..], rest, values);
      assert [lit[0]] + lit[1..] == lit;
    } else {
      assert s == rest;
    }
  }

  lemma SubstitutePlaceholder(name: string, rest: string, values: map<string, string>)
    requires |name| > 0 && '}' !in name
    ensures Substitute("{" + name + "}" + rest, values)
            == (if name in values then values[name] else "{" + name + "}") + Substitute(rest, values)
  {
    var s := "{" + name + "}" + rest;
    var k := |name| + 1;
    forall m | 1 <= m < k ensures s[m] != '}' {
      assert s[m] == name[m - 1];
    }
    CloseFirst(s, 1, k);
    assert s[1..k] == name;
    assert s[..k + 1] == "{" + name + "}";
    assert s[k + 1..] == rest;
  }

  /** Substitution fills in exactly the placeholders the template was written with. */
  lemma {:induction false} SubstituteRender(parts: seq<Part>, values: map<string, string>)
    requires PartsOk(parts)
    ensures Substitute(Render(parts), values) == RenderWith(parts, values)
    decreases |parts|
  {
    if |parts| > 0 {
      assert PartOk(parts[0]);
      assert PartsOk(parts[1..]) by {
        forall j | 0 <= j < |parts| - 1 ensures PartOk(parts[1..][j]) {
          assert parts[1..][j] == parts[j + 1];
        }
      }
      SubstituteRender(parts[1..], values);
      match parts[0]
      case Lit(t) =>
        SubstituteLiteral(t, Render(parts[1..]), values);
      case Var(n) =>
        SubstitutePlaceholder(n, Render(parts[1..]), values);
    }
  }

  /** `PromptTemplate(template)`: the text and the variables found in it. */
  datatype Template = Template(template: string, variables: seq<string>)

  function MakeTemplate(t: string): (r: Template)
    ensures r.template == t && r.variables == Extract(t)
  {
    Template(t, Extract(t))
  }

  /** The variables of `t` that have no value. */
  function Missing(t: Template, values: map<string, string>): set<string>
  {
    set v | v in t.variables && v !in values
  }

  /** `format(**kwargs)`: ValueError naming the missing variables before any
      substitution if some variable has no value (extra values are allowed);
      otherwise the filled-in text. */
  function Format(t: Template, values: map<string, string>): (r: Result<string>)
    ensures r.Err? <==> exists v :: v in t.variables && v !in values
    ensures r.Err? ==> r.error == MissingVariables(Missing(t, values))
    ensures r.Err? ==> forall v :: v in r.error.names <==> v in t.variables && v !in values
    ensures r.Ok? ==> r.value == Substitute(t.template, values)
  {
    var missing := Missing(t, values);
    assert forall v :: v in t.variables && v !in values ==> v in missing;
    if missing != {} then Err(MissingVariables(missing))
    else Ok(Substitute(t.template, values))
  }

  /** A template written from parts formats, given every name, to the parts
      with each placeholder replaced by its value. */
  lemma FormatRender(parts: seq<Part>, values: map<string, string>)
    requires PartsOk(parts)
    requires forall v :: v in Names(parts) ==> v in values
    ensures Format(MakeTemplate(Render(parts)), values) == Ok(RenderWith(parts, values))
  {
    ExtractRender(parts);
    SubstituteRender(parts, values);
  }

  // ----- PromptManager -----------------------------------------------------------

  /** `PromptManager.templates`. */
  type Registry = map<string, Template>

  /** The default template texts, written as the literal pieces and placeholders
      they are made of (each piece is a substring of the source's literal, in order). */
  const SystemParts: seq<Part> :=
    [Lit("You are a "), Lit("helpful AI "), Lit("assistant. "), Lit("Please provide "),
     Lit("clear and "), Lit("concise "), Lit("responses to "), Lit("the user's "), Lit("questions.")]
  const QaParts: seq<Part> :=
    [Lit("Question: "), Var("question"), Lit("\n\nContext: "), Var("context"), Lit("\n\nAnswer:")]
  const SummarizationParts: seq<Part> :=
    [Lit("Please summarize "), Lit("the following "), Lit("text in "), Var("length"), Lit(" words:\n\n"), Var("text")]
  const TranslationParts: seq<Part> :=
    [Lit("Translate the "), Lit("following "), Var("source_language"), Lit(" text to "),
     Var("target_language"), Lit(":\n\n"), Var("text")]

  /** `_initialize_default_templates()`: exactly the four default names, each
      template holding the variables the scanner finds in its text: none;
      `question, context`; `length, text`; `source_language, target_language, text`. */
  function Defaults(): (r: Registry)
    ensures r.Keys == {"system_prompt", "qa_prompt", "summarization_prompt", "translation_prompt"}
    ensures "system_prompt" in r && r["system_prompt"].variables == []
    ensures "qa_prompt" in r && r["qa_prompt"].variables == ["question", "context"]
    ensures "summarization_prompt" in r && r["summarization_prompt"].variables == ["length", "text"]
    ensures "translation_prompt" in r && r["translation_prompt"].variables == ["source_language", "target_language", "text"]
  {
    var r := map name | name in DefaultNameSet :: MakeTemplate(Render(DefaultParts(name)));
    DefaultRegistry(r);
    r
  }

  /** The registry built from the default parts, by key. */
  lemma DefaultRegistry(r: Registry)
    requires forall name :: name in r <==> name in DefaultNameSet
    requires forall name :: name in r ==> r[name] == MakeTemplate(Render(DefaultParts(name)))
    ensures r.Keys == {"system_prompt", "qa_prompt", "summarization_prompt", "translation_prompt"}
    ensures "system_prompt" in r && r["system_prompt"].variables == []
    ensures "qa_prompt" in r && r["qa_prompt"].variables == ["question", "context"]
    ensures "summarization_prompt" in r && r["summarization_prompt"].variables == ["length", "text"]
    ensures "translation_prompt" in r && r["translation_prompt"].variables == ["source_language", "target_language", "text"]
  {
    DefaultPartsAre();
    DefaultPartsOk();
    SystemNames();
    DefaultScan(r, "system_prompt", SystemParts);
    QaNames();
    DefaultScan(r, "qa_prompt", QaParts);
    SummarizationNames();
    DefaultScan(r, "summarization_prompt", SummarizationParts);
    TranslationNames();
    DefaultScan(r, "translation_prompt", TranslationParts);
  }

  lemma DefaultScan(r: Registry, name: string, parts: seq<Part>)
    requires forall name :: name in r <==> name in DefaultNameSet
    requires forall name :: name in r ==> r[name] == MakeTemplate(Render(DefaultParts(name)))
    requires name in DefaultNameSet && parts == DefaultParts(name) && PartsOk(parts)
    ensures name in r && r[name].variables == Names(parts)
  {
    ExtractRender(parts);
  }

  const DefaultNameSet: set<string> := {"system_prompt", "qa_prompt", "summarization_prompt", "translation_prompt"}

  /** The parts each default template is written from. */
  function DefaultParts(name: string): seq<Part>
  {
    if name == "system_prompt" then SystemParts
    else if name == "qa_prompt" then QaParts
    else if name == "summarization_prompt" then SummarizationParts
    else TranslationParts
  }

  lemma DefaultIs(name: string)
    requires name in Defaults()
    ensures Defaults()[name] == MakeTemplate(Render(DefaultParts(name)))
  {
  }

  lemma DefaultPartsAre()
    ensures DefaultParts("system_prompt") == SystemParts
    ensures DefaultParts("qa_prompt") == QaParts
    ensures DefaultParts("summarization_prompt") == SummarizationParts
    ensures DefaultParts("translation_prompt") == TranslationParts
  {
    assert "qa_prompt" != "system_prompt" by { assert |"qa_prompt"| != |"system_prompt"|; }
    assert "summarization_prompt" != "system_prompt" by { assert |"summarization_prompt"| != |"system_prompt"|; }
    assert "summarization_prompt" != "qa_prompt" by { assert |"summarization_prompt"| != |"qa_prompt"|; }
    assert "translation_prompt" != "system_prompt" by { assert "translation_prompt"[0] != "system_prompt"[0]; }
    assert "translation_prompt" != "qa_prompt" by { assert |"translation_prompt"| != |"qa_prompt"|; }
    assert "translation_prompt" != "summarization_prompt" by { assert |"translation_prompt"| != |"summarization_prompt"|; }
  }

  lemma SystemNames()
    ensures Names(SystemParts) == []
  {
    var p := SystemParts;
    assert forall k :: 0 <= k <= |p| ==> Names(p[k..]) == [] by {
      forall k | 0 <= k <= |p| ensures Names(p[k..]) == [] {
        NoVarNames(p, k);
      }
    }
    assert p[0..] == p;
  }

  lemma {:induction false} NoVarNames(p: seq<Part>, k: nat)
    requires k <= |p| && forall j :: 0 <= j < |p| ==> p[j].Lit?
    ensures Names(p[k..]) == []
    decreases |p| - k
  {
    if k < |p| {
      NoVarNames(p, k + 1);
      assert p[k..][1..] == p[k + 1..];
    }
  }

  lemma QaNames()
    ensures Names(QaParts) == ["question", "context"]
  {
    var p := QaParts;
    assert Names(p[4..]) == [] + Names(p[5..]);
    assert Names(p[3..]) == ["context"] + Names(p[4..]);
    assert Names(p[2..]) == [] + Names(p[3..]);
    assert Names(p[1..]) == ["question"] + Names(p[2..]);
  }

  lemma SummarizationNames()
    ensures Names(SummarizationParts) == ["length", "text"]
  {
    var p := SummarizationParts;
    assert Names(p[5..]) == ["text"] + Names(p[6..]);
    assert Names(p[4..]) == [] + Names(p[5..]);
    assert Names(p[3..]) == ["length"] + Names(p[4..]);
    assert Names(p[2..]) == [] + Names(p[3..]);
    assert Names(p[1..]) == [] + Names(p[2..]);
  }

  lemma TranslationNames()
    ensures Names(TranslationParts) == ["source_language", "target_language", "text"]
  {
    var p := TranslationParts;
    assert Names(p[6..]) == ["text"] + Names(p[7..]);
    assert Names(p[5..]) == [] + Names(p[6..]);
    assert Names(p[4..]) == ["target_language"] + Names(p[5..]);
    assert Names(p[3..]) == [] + Names(p[4..]);
    assert Names(p[2..]) == ["source_language"] + Names(p[3..]);
    assert Names(p[1..]) == [] + Names(p[2..]);
  }

  /** No default literal holds a `{` and every default placeholder is a plain name. */
  lemma DefaultPartsOk()
    ensures PartsOk(SystemParts) && PartsOk(QaParts) && PartsOk(SummarizationParts) && PartsOk(TranslationParts)
  {
    forall j | 0 <= j < |SystemParts| ensures PartOk(SystemParts[j]) { SystemPartsOk(j); }
    forall j | 0 <= j < |QaParts| ensures PartOk(QaParts[j]) { QaPartsOk(j); }
    forall j | 0 <= j < |SummarizationParts| ensures PartOk(SummarizationParts[j]) { SummarizationPartsOk(j); }
    forall j | 0 <= j < |TranslationParts| ensures PartOk(TranslationParts[j]) { TranslationPartsOk(j); }
  }

  lemma SystemPartsOk(j: nat)
    requires j < |SystemParts|
    ensures PartOk(SystemParts[j])
  {
    if j < 3 { SystemPartsOkA(j); }
    else if j < 6 { SystemPartsOkB(j); }
    else { SystemPartsOkC(j); }
  }

  lemma SystemPartsOkA(j: nat)
    requires j < 3
    ensures PartOk(SystemParts[j])
  {
    var p := SystemParts;
    if j == 0 { assert PartOk(p[0]); }
    else if j == 1 { assert PartOk(p[1]); }
    else { assert PartOk(p[2]); }
  }

  lemma SystemPartsOkB(j: nat)
    requires 3 <= j < 6
    ensures PartOk(SystemParts[j])
  {
    var p := SystemParts;
    if j == 3 { assert PartOk(p[3]); }
    else if j == 4 { assert PartOk(p[4]); }
    else { assert PartOk(p[5]); }
  }

  lemma SystemPartsOkC(j: nat)
    requires 6 <= j < 9
    ensures PartOk(SystemParts[j])
  {
    var p := SystemParts;
    if j == 6 { assert PartOk(p[6]); }
    else if j == 7 { assert PartOk(p[7]); }
    else { assert PartOk(p[8]); }
  }

  lemma QaPartsOk(j: nat)
    requires j < |QaParts|
    ensures PartOk(QaParts[j])
  {
    if j < 3 { QaPartsOkA(j); }
    else { QaPartsOkB(j); }
  }

  lemma QaPartsOkA(j: nat)
    requires j < 3
    ensures PartOk(QaParts[j])
  {
    var p := QaParts;
    if j == 0 { assert PartOk(p[0]); }
    else if j == 1 { assert PartOk(p[1]); }
    else { assert PartOk(p[2]); }
  }

  lemma QaPartsOkB(j: nat)
    requires 3 <= j < 5
    ensures PartOk(QaParts[j])
  {
    var p := QaParts;
    if j == 3 { assert PartOk(p[3]); }
    else { assert PartOk(p[4]); }
  }

  lemma SummarizationPartsOk(j: nat)
    requires j < |SummarizationParts|
    ensures PartOk(SummarizationParts[j])
  {
    if j < 3 { SummarizationPartsOkA(j); }
    else { SummarizationPartsOkB(j); }
  }

  lemma SummarizationPartsOkA(j: nat)
    requires j < 3
    ensures PartOk(SummarizationParts[j])
  {
    var p := SummarizationParts;
    if j == 0 { assert PartOk(p[0]); }
    else if j == 1 { assert PartOk(p[1]); }
    else { assert PartOk(p[2]); }
  }

  lemma SummarizationPartsOkB(j: nat)
    requires 3 <= j < 6
    ensures PartOk(SummarizationParts[j])
  {
    var p := SummarizationParts;
    if j == 3 { assert PartOk(p[3]); }
    else if j == 4 { assert PartOk(p[4]); }
    else { assert PartOk(p[5]); }
  }

  lemma TranslationPartsOk(j: nat)
    requires j < |TranslationParts|
    ensures PartOk(TranslationParts[j])
  {
    if j < 3 { TranslationPartsOkA(j); }
    else if j < 6 { TranslationPartsOkB(j); }
    else { TranslationPartsOkC(j); }
  }

  lemma TranslationPartsOkA(j: nat)
    requires j < 3
    ensures PartOk(TranslationParts[j])
  {
    var p := TranslationParts;
    if j == 0 { assert PartOk(p[0]); }
    else if j == 1 { assert PartOk(p[1]); }
    else { assert PartOk(p[2]); }
  }

  lemma TranslationPartsOkB(j: nat)
    requires 3 <= j < 6
    ensures PartOk(TranslationParts[j])
  {
    var p := TranslationParts;
    if j == 3 { assert PartOk(p[3]); }
    else if j == 4 { assert PartOk(p[4]); }
    else { assert PartOk(p[5]); }
  }

  lemma TranslationPartsOkC(j: nat)
    requires 6 <= j < 7
    ensures PartOk(TranslationParts[j])
  {
    var p := TranslationParts;
    assert PartOk(p[6]);
  }

  /** `add_template(name, template)`: inserts or overwrites `name`, nothing else. */
  function AddTemplate(reg: Registry, name: string, t: string): (r: Registry)
    ensures name in r && r[name].template == t && r[name].variables == Extract(t)
    ensures forall n :: n != name ==> (n in r <==> n in reg)
    ensures forall n :: n != name && n in reg ==> r[n] == reg[n]
  {
    reg[name := MakeTemplate(t)]
  }

  /** `get_prompt(name, **kwargs)`: ValueError for an unknown name, otherwise
      the named template formatted. */
  function GetPrompt(reg: Registry, name: string, values: map<string, string>): (r: Result<string>)
    ensures name !in reg <==> r == Err(TemplateNotFound(name))
    ensures name in reg ==> r == Format(reg[name], values)
  {
    if name !in reg then Err(TemplateNotFound(name))
    else Format(reg[name], values)
  }

  /** A template just added is the one `get_prompt` uses; other names are unaffected. */
  lemma AddThenGet(reg: Registry, name: string, t: string, other: string, values: map<string, string>)
    requires other != name
    ensures GetPrompt(AddTemplate(reg, name, t), name, values) == Format(MakeTemplate(t), values)
    ensures GetPrompt(AddTemplate(reg, name, t), other, values) == GetPrompt(reg, other, values)
  {
  }

  /** `optimize_prompt(name, feedback)`: ValueError for an unknown name, otherwise
      the stored text followed by a note; the registry itself is not changed. */
  function OptimizePrompt(reg: Registry, name: string, feedback: string): (r: Result<string>)
    ensures name !in reg <==> r == Err(TemplateNotFound(name))
    ensures name in reg ==> r.Ok? && StartsWith(r.value, reg[name].template)
    ensures name in reg ==> r.value[|reg[name].template|..] == "\n\nNote: " + feedback
  {
    if name !in reg then Err(TemplateNotFound(name))
    else
      var original := reg[name].template;
      var optimized := original + "\n\nNote: " + feedback;
      assert optimized[..|original|] == original;
      assert optimized[|original|..] == "\n\nNote: " + feedback;
      Ok(optimized)
  }

  // ----- DynamicPromptGenerator ---------------------------------------------------

  const NoContext: string := "No additional context provided"

  /** `generate_qa_prompt(question, context)`: the default QA template with the
      question and the context, where an empty context becomes a fixed sentence. */
  function GenerateQaPrompt(question: string, context: string): (r: Result<string>)
    ensures r == Ok("Question: " + question + "\n\nContext: "
                    + (if context == "" then NoContext else context) + "\n\nAnswer:")
  {
    var ctx := if context == "" then NoContext else context;
    QaPrompt(question, ctx);
    GetPrompt(Defaults(), "qa_prompt", map["question" := question, "context" := ctx])
  }

  lemma QaPrompt(question: string, ctx: string)
    ensures GetPrompt(Defaults(), "qa_prompt", map["question" := question, "context" := ctx])
            == Ok("Question: " + question + "\n\nContext: " + ctx + "\n\nAnswer:")
  {
    var values := map["question" := question, "context" := ctx];
    DefaultIs("qa_prompt");
    QaFormat(values);
    QaRendered(question, ctx);
  }

  lemma QaFormat(values: map<string, string>)
    requires "question" in values && "context" in values
    ensures Format(MakeTemplate(Render(QaParts)), values) == Ok(RenderWith(QaParts, values))
  {
    DefaultPartsOk();
    QaNames();
    FormatRender(QaParts, values);
  }

  lemma QaRendered(question: string, ctx: string)
    ensures RenderWith(QaParts, map["question" := question, "context" := ctx])
            == "Question: " + question + "\n\nContext: " + ctx + "\n\nAnswer:"
  {
    var values := map["question" := question, "context" := ctx];
    var p := QaParts;
    assert RenderWith(p[4..], values) == "\n\nAnswer:" + RenderWith([], values);
    assert RenderWith(p[3..], values) == ctx + RenderWith(p[4..], values);
    assert RenderWith(p[2..], values) == "\n\nContext: " + RenderWith(p[3..], values);
    assert RenderWith(p[1..], values) == question + RenderWith(p[2..], values);
    assert RenderWith(p, values) == "Question: " + RenderWith(p[1..], values);
  }

  /** `generate_summary_prompt(text, length)`: the default summarization template
      with the text and the length; `lengthText` is `str(length)`, the text
      `str.format` puts in for the integer. */
  function GenerateSummaryPrompt(text: string, lengthText: string): (r: Result<string>)
    ensures r == Ok("Please summarize the following text in " + lengthText + " words:\n\n" + text)
  {
    SummaryPrompt(text, lengthText);
    GetPrompt(Defaults(), "summarization_prompt", map["text" := text, "length" := lengthText])
  }

  lemma SummaryPrompt(text: string, lengthText: string)
    ensures GetPrompt(Defaults(), "summarization_prompt", map["text" := text, "length" := lengthText])
            == Ok("Please summarize the following text in " + lengthText + " words:\n\n" + text)
  {
    var values := map["text" := text, "length" := lengthText];
    DefaultIs("summarization_prompt");
    SummaryFormat(values);
    SummaryRendered(text, lengthText);
  }

  lemma SummaryFormat(values: map<string, string>)
    requires "text" in values && "length" in values
    ensures Format(MakeTemplate(Render(SummarizationParts)), values) == Ok(RenderWith(SummarizationParts, values))
  {
    DefaultPartsOk();
    SummarizationNames();
    FormatRender(SummarizationParts, values);
  }

  lemma SummaryRendered(text: string, lengthText: string)
    ensures RenderWith(SummarizationParts, map["text" := text, "length" := lengthText])
            == "Please summarize the following text in " + lengthText + " words:\n\n" + text
  {
    var values := map["text" := text, "length" := lengthText];
    var p := SummarizationParts;
    assert RenderWith(p[5..], values) == text + RenderWith([], values);
    assert RenderWith(p[4..], values) == " words:\n\n" + RenderWith(p[5..], values);
    assert RenderWith(p[3..], values) == lengthText + RenderWith(p[4..], values);
    assert RenderWith(p[2..], values) == "text in " + RenderWith(p[3..], values);
    assert RenderWith(p[1..], values) == "the following " + RenderWith(p[2..], values);
    assert RenderWith(p, values) == "Please summarize " + RenderWith(p[1..], values);
    SummaryOpening();
  }

  lemma SummaryOpening()
    ensures "Please summarize " + "the following " + "text in " == "Please summarize the following text in "
  {
  }
}
