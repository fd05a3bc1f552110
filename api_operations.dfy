/** The test-execution helpers of the browser client
    (frontend/api-operations.js): `{{variable}}` extraction, substitution and
    validation, the history record of a test run, and the history log's
    local fallback and loading rules. */
module ApiOperations {
  import opened Wrappers
  import opened Text
  import opened Seqs
  import Database

  // ---------------------------------------------------------------------
  // Extraction: the global pattern /\{\{([^}]+)\}\}/

  /** The first `}` at or after `k`, or `|s|` when there is none. */
  function FirstClose(s: string, k: nat): (j: nat)
    requires k <= |s|
    ensures k <= j <= |s|
    ensures j < |s| ==> s[j] == '}'
    ensures forall m :: k <= m < j ==> s[m] != '}'
    decreases |s| - k
  {
    if k == |s| || s[k] == '}' then k else FirstClose(s, k + 1)
  }

  /** The pattern matches at `i`: `{{`, at least one character other than
      `}`, then `}}`. The run cannot contain `}`, so it ends at the first
      `}` after the braces, which must be doubled. */
  predicate MatchAt(s: string, i: nat) {
    && i + 2 <= |s| && s[i] == '{' && s[i + 1] == '{'
    && var j := FirstClose(s, i + 2);
       j > i + 2 && j + 1 < |s| && s[j + 1] == '}'
  }

  /** The text between the braces of every match at or after `p`, left to
      right, each search resuming after the previous match. */
  function Scan(s: string, p: nat): (raw: seq<string>)
    requires p <= |s|
    ensures forall i :: 0 <= i < |raw| ==> raw[i] != [] && '}' !in raw[i]
    decreases |s| - p
  {
    if p == |s| then []
    else if MatchAt(s, p) then
      var j := FirstClose(s, p + 2);
      [s[p + 2..j]] + Scan(s, j + 2)
    else Scan(s, p + 1)
  }

  function TrimAll(xs: seq<string>): (r: seq<string>)
    ensures |r| == |xs|
    ensures forall i :: 0 <= i < |xs| ==> r[i] == Trim(xs[i])
  {
    seq(|xs|, i requires 0 <= i < |xs| => Trim(xs[i]))
  }

  /** The variables of a prompt: the names the pattern finds, trimmed,
      each once, in order of first occurrence. */
  function Variables(prompt: string): (vs: seq<string>)
    ensures NoDup(vs)
    ensures forall i :: 0 <= i < |vs| ==> vs[i] in TrimAll(Scan(prompt, 0))
    ensures forall i :: 0 <= i < |Scan(prompt, 0)| ==> Trim(Scan(prompt, 0)[i]) in vs
  {
    var names := TrimAll(Scan(prompt, 0));
    assert forall i :: 0 <= i < |Scan(prompt, 0)| ==> names[i] == Trim(Scan(prompt, 0)[i]);
    Dedup(names)
  }

  /** A placeholder at the start of the text is found, and scanning
      resumes right after its closing braces. */
  lemma ScanFindsPlaceholder(name: string, post: string)
    requires '}' !in name && name != []
    ensures Scan("{{" + name + "}}" + post, 0) == [name] + Scan(post, 0)
  {
    var s := "{{" + name + "}}" + post;
    var j := |name| + 2;
    assert forall m :: 2 <= m < j ==> s[m] == name[m - 2];
    assert s[j] == '}' && s[j + 1] == '}';
    FirstCloseAt(s, 2, j);
    assert s[2..j] == name;
    assert s[j + 2..] == post;
    ScanShift(s, j + 2, post);
  }

  lemma {:induction false} FirstCloseAt(s: string, k: nat, j: nat)
    requires k <= j < |s| && s[j] == '}'
    requires forall m :: k <= m < j ==> s[m] != '}'
    ensures FirstClose(s, k) == j
    decreases j - k
  {
    if k < j {
      FirstCloseAt(s, k + 1, j);
    }
  }

  /** Scanning a suffix of a text from its start is scanning the text from
      where the suffix begins. */
  lemma {:induction false} ScanShift(s: string, p: nat, t: string)
    requires p <= |s| && s[p..] == t
    ensures Scan(s, p) == Scan(t, 0)
    decreases |s| - p
  {
    ScanShiftFrom(s, p, t, 0);
  }

  lemma {:induction false} ScanShiftFrom(s: string, p: nat, t: string, q: nat)
    requires p <= |s| && s[p..] == t && q <= |t|
    ensures Scan(s, p + q) == Scan(t, q)
    decreases |t| - q
  {
    if q < |t| {
      if MatchAt(t, q) {
        var j := FirstClose(t, q + 2);
        ScanShiftFrom(s, p, t, j + 2);
        ScanShiftMatch(s, p, t, q);
      } else {
        ScanShiftFrom(s, p, t, q + 1);
        ScanShiftSkip(s, p, t, q);
      }
    }
  }

  /** The step of `ScanShiftFrom` at a match. */
  lemma ScanShiftMatch(s: string, p: nat, t: string, q: nat)
    requires p <= |s| && s[p..] == t && q < |t| && MatchAt(t, q)
    requires Scan(s, p + FirstClose(t, q + 2) + 2) == Scan(t, FirstClose(t, q + 2) + 2)
    ensures Scan(s, p + q) == Scan(t, q)
  {
    MatchShift(s, p, t, q);
  }

  /** The step of `ScanShiftFrom` where nothing matches. */
  lemma ScanShiftSkip(s: string, p: nat, t: string, q: nat)
    requires p <= |s| && s[p..] == t && q < |t| && !MatchAt(t, q)
    requires Scan(s, p + q + 1) == Scan(t, q + 1)
    ensures Scan(s, p + q) == Scan(t, q)
  {
    MatchShift(s, p, t, q);
  }

  /** A match in a suffix is a match in the whole text, with the same
      name. */
  lemma MatchShift(s: string, p: nat, t: string, q: nat)
    requires p <= |s| && s[p..] == t && q < |t|
    ensures MatchAt(s, p + q) == MatchAt(t, q)
    ensures MatchAt(t, q) ==>
      var j := FirstClose(t, q + 2);
      FirstClose(s, p + q + 2) == p + j && s[p + q + 2..p + j] == t[q + 2..j]
  {
    assert forall i :: 0 <= i < |t| ==> t[i] == s[p + i];
    if q + 2 <= |t| {
      FirstCloseShift(s, p, t, q + 2);
    }
  }

  lemma {:induction false} FirstCloseShift(s: string, p: nat, t: string, k: nat)
    requires p <= |s| && s[p..] == t
    ensures k <= |t| ==> FirstClose(s, p + k) == p + FirstClose(t, k)
    decreases |t| - k
  {
    if k < |t| && t[k] != '}' {
      FirstCloseShift(s, p, t, k + 1);
    }
  }

  /** One step of the scan at a match: the match contributes its raw name
      and the scan resumes after the closing braces. */
  lemma ScanStep(s: string, p: nat, matched: seq<string>)
    requires p < |s| && MatchAt(s, p)
    ensures var j := FirstClose(s, p + 2);
      matched + Scan(s, p) == (matched + [s[p + 2..j]]) + Scan(s, j + 2)
  {
    var j := FirstClose(s, p + 2);
    var raw, rest := s[p + 2..j], Scan(s, j + 2);
    assert Scan(s, p) == [raw] + rest;
    assert (matched + [raw]) + rest == matched + ([raw] + rest);
  }

  /** Away from a match the scan moves one character on. */
  lemma ScanSkip(s: string, p: nat, matched: seq<string>)
    requires p < |s| && !MatchAt(s, p) && matched + Scan(s, p) == Scan(s, 0)
    ensures matched + Scan(s, p + 1) == Scan(s, 0)
  {
  }

  lemma TrimAllSnoc(xs: seq<string>, x: string)
    ensures TrimAll(xs + [x]) == TrimAll(xs) + [Trim(x)]
  {
  }

  /** A match at `p` moves the scan past its closing braces and adds its
      trimmed name to the variables unless already there. */
  lemma MatchAdvance(s: string, p: nat, matched: seq<string>, names: seq<string>)
    requires p < |s| && MatchAt(s, p)
    requires matched + Scan(s, p) == Scan(s, 0) && names == TrimAll(matched)
    ensures var j := FirstClose(s, p + 2);
      var raw := s[p + 2..j];
      && (matched + [raw]) + Scan(s, j + 2) == Scan(s, 0)
      && names + [Trim(raw)] == TrimAll(matched + [raw])
      && Dedup(names + [Trim(raw)])
         == if Trim(raw) in Dedup(names) then Dedup(names) else Dedup(names) + [Trim(raw)]
  {
    var j := FirstClose(s, p + 2);
    var raw := s[p + 2..j];
    ScanStep(s, p, matched);
    TrimAllSnoc(matched, raw);
    DedupSnoc(names, Trim(raw));
  }

  /** `extractVariables`: repeated leftmost matching, pushing each trimmed
      name the list does not yet include. */
  method ExtractVariables(prompt: string) returns (variables: seq<string>)
    ensures variables == Variables(prompt)
  {
    variables := [];
    ghost var matched: seq<string> := [];
    ghost var names: seq<string> := [];
    var p := 0;
    while p < |prompt|
      invariant 0 <= p <= |prompt|
      invariant matched + Scan(prompt, p) == Scan(prompt, 0)
      invariant names == TrimAll(matched)
      invariant variables == Dedup(names)
      decreases |prompt| - p
    {
      if MatchAt(prompt, p) {
        MatchAdvance(prompt, p, matched, names);
        var j := FirstClose(prompt, p + 2);
        var raw := prompt[p + 2..j];
        var name := Trim(raw);
        if name !in variables {
          variables := variables + [name];
        }
        matched := matched + [raw];
        names := names + [name];
        p := j + 2;
      } else {
        ScanSkip(prompt, p, matched);
        p := p + 1;
      }
    }
    assert Scan(prompt, p) == [];
    assert matched == Scan(prompt, 0);
  }

  // ---------------------------------------------------------------------
  // Substitution: the global pattern \{\{\s*NAME\s*\}\}

  /** The first index at or after `k` that does not hold whitespace. */
  function SkipSpace(s: string, k: nat): (j: nat)
    requires k <= |s|
    ensures k <= j <= |s|
    ensures AllSpace(s[k..j])
    ensures j < |s| ==> !IsSpace(s[j])
    decreases |s| - k
  {
    if k < |s| && IsSpace(s[k]) then
      var j := SkipSpace(s, k + 1);
      assert s[k..j] == [s[k]] + s[k + 1..j];
      j
    else k
  }

  /** Where a placeholder for `name` that starts at `p` ends: `{{`, any
      whitespace, the name, any whitespace, `}}`. */
  function PlaceholderEnd(s: string, p: nat, name: string): (e: Option<nat>)
    requires p <= |s|
    ensures e.Some? ==> p + 4 <= e.value <= |s|
  {
    if p + 2 <= |s| && s[p] == '{' && s[p + 1] == '{' then
      var k := SkipSpace(s, p + 2);
      if k + |name| <= |s| && s[k..k + |name|] == name then
        var m := SkipSpace(s, k + |name|);
        if m + 2 <= |s| && s[m] == '}' && s[m + 1] == '}' then Some(m + 2) else None
      else None
    else None
  }

  /** `s.replace(pattern, value)`: each placeholder, leftmost first and
      without overlap, becomes `value`. Whether a placeholder starts at a
      position depends only on the text from there on, so the scan goes
      down the text's suffixes. */
  function ReplaceAll(s: string, name: string, value: string): string
    decreases |s|
  {
    if s == [] then []
    else match PlaceholderEnd(s, 0, name)
      case Some(e) => value + ReplaceAll(s[e..], name, value)
      case None => [s[0]] + ReplaceAll(s[1..], name, value)
  }

  /** Text in which no placeholder for the name starts comes back
      unchanged. */
  lemma {:induction false} ReplaceNothing(s: string, name: string, value: string)
    requires forall q :: 0 <= q < |s| ==> PlaceholderEnd(s[q..], 0, name).None?
    ensures ReplaceAll(s, name, value) == s
    decreases |s|
  {
    if s != [] {
      assert s[0..] == s;
      forall q | 0 <= q < |s[1..]|
        ensures PlaceholderEnd(s[1..][q..], 0, name).None?
      {
        assert s[1..][q..] == s[q + 1..];
      }
      ReplaceNothing(s[1..], name, value);
    }
  }

  /** Any whitespace between the braces and the name is accepted: `{{`,
      whitespace up to `k`, the name up to `b`, whitespace up to `m`, then
      `}}` is recognised whole. */
  lemma PlaceholderRecognised(s: string, p: nat, k: nat, b: nat, m: nat, name: string)
    requires p + 2 <= k <= b <= m && m + 2 <= |s|
    requires s[p] == '{' && s[p + 1] == '{' && s[m] == '}' && s[m + 1] == '}'
    requires AllSpace(s[p + 2..k]) && s[k..b] == name && AllSpace(s[b..m])
    requires name == [] || !IsSpace(name[0])
    ensures PlaceholderEnd(s, p, name) == Some(m + 2)
  {
    if name == [] {
      assert s[p + 2..m] == s[p + 2..k] + s[b..m];
      EmptyPlaceholderRecognised(s, p, m);
    } else {
      assert s[k] == name[0];
      SkipSpaceOver(s, p + 2, k);
      SkipSpaceOver(s, b, m);
    }
  }

  /** `{{`, only whitespace, `}}` is a placeholder for the empty name. */
  lemma EmptyPlaceholderRecognised(s: string, p: nat, m: nat)
    requires p + 2 <= m && m + 2 <= |s|
    requires s[p] == '{' && s[p + 1] == '{' && s[m] == '}' && s[m + 1] == '}'
    requires AllSpace(s[p + 2..m])
    ensures PlaceholderEnd(s, p, []) == Some(m + 2)
  {
    SkipSpaceOver(s, p + 2, m);
    SkipSpaceOver(s, m, m);
  }

  /** Whitespace from `k` up to a non-space at `stop`: the skip lands on
      `stop`. */
  lemma SkipSpaceOver(s: string, k: nat, stop: nat)
    requires k <= stop < |s|
    requires AllSpace(s[k..stop])
    requires !IsSpace(s[stop])
    ensures SkipSpace(s, k) == stop
    decreases stop - k
  {
    if k < stop {
      assert s[k] == s[k..stop][0];
      assert s[k + 1..stop] == s[k..stop][1..];
      SkipSpaceOver(s, k + 1, stop);
    }
  }

  /** One input field of the variables panel. */
  datatype VariableInput = VariableInput(name: string, value: string)

  /** Substitution of all inputs in order; an input whose value trims to
      nothing leaves its placeholders in place. */
  function SubstituteAll(prompt: string, inputs: seq<VariableInput>): string
  {
    if inputs == [] then prompt
    else
      var before := SubstituteAll(prompt, inputs[..|inputs| - 1]);
      var input := inputs[|inputs| - 1];
      if AllSpace(input.value) then before else ReplaceAll(before, input.name, Trim(input.value))
  }

  /** When every value is blank the prompt is returned as it is. */
  lemma {:induction false} SubstituteBlank(prompt: string, inputs: seq<VariableInput>)
    requires forall i :: 0 <= i < |inputs| ==> AllSpace(inputs[i].value)
    ensures SubstituteAll(prompt, inputs) == prompt
  {
    if inputs != [] {
      SubstituteBlank(prompt, inputs[..|inputs| - 1]);
    }
  }

  /** `substituteVariables`. */
  method SubstituteVariables(prompt: string, inputs: seq<VariableInput>) returns (processed: string)
    ensures processed == SubstituteAll(prompt, inputs)
  {
    processed := prompt;
    var i := 0;
    while i < |inputs|
      invariant 0 <= i <= |inputs|
      invariant processed == SubstituteAll(prompt, inputs[..i])
    {
      var value := Trim(inputs[i].value);
      assert inputs[..i + 1][..i] == inputs[..i];
      if value != [] {
        processed := ReplaceAll(processed, inputs[i].name, value);
      }
      i := i + 1;
    }
    assert inputs[..i] == inputs;
  }

  /** A placeholder with spaces inside its braces is replaced by the
      value. */
  lemma SubstituteExample()
    ensures SubstituteAll("{{ name }}!", [VariableInput("name", "World")]) == "World!"
  {
    var s := "{{ name }}!";
    var input := VariableInput("name", "World");
    assert !IsSpace(input.value[0]);
    SubstituteOne(s, input);
    TrimUnchanged(input.value);
    ExampleReplaced(s);
  }

  /** With one input whose value is not blank, that input's placeholders
      are replaced by its trimmed value. */
  lemma SubstituteOne(prompt: string, input: VariableInput)
    requires !AllSpace(input.value)
    ensures SubstituteAll(prompt, [input]) == ReplaceAll(prompt, input.name, Trim(input.value))
  {
    assert [input][..0] == [];
  }

  /** A placeholder for the name, with text before it that opens no
      brace, is the first thing replaced: the text before it is kept, the
      placeholder becomes the value, and the rest is replaced on its own. */
  lemma ReplaceFirstPlaceholder(pre: string, name: string, post: string, value: string)
    requires forall i :: 0 <= i < |pre| ==> pre[i] != '{'
    requires name == [] || !IsSpace(name[0])
    ensures ReplaceAll(pre + "{{" + name + "}}" + post, name, value)
         == pre + value + ReplaceAll(post, name, value)
  {
    var rest := "{{" + name + "}}" + post;
    assert pre + "{{" + name + "}}" + post == pre + rest;
    ReplacePlainPrefix(pre, rest, name, value);
    ReplaceLeadingPlaceholder(name, post, value);
  }

  /** Text that opens no brace is copied unchanged in front of the
      replaced remainder. */
  lemma {:induction false} ReplacePlainPrefix(pre: string, t: string, name: string, value: string)
    requires forall i :: 0 <= i < |pre| ==> pre[i] != '{'
    ensures ReplaceAll(pre + t, name, value) == pre + ReplaceAll(t, name, value)
    decreases |pre|
  {
    if pre == [] {
      assert pre + t == t;
    } else {
      assert (pre + t)[0] == pre[0] && (pre + t)[1..] == pre[1..] + t;
      ReplacePlainFirst(pre + t, name, value);
      ReplacePlainPrefix(pre[1..], t, name, value);
      assert pre == [pre[0]] + pre[1..];
    }
  }

  /** A text that starts with a placeholder for the name: the placeholder
      becomes the value. */
  lemma ReplaceLeadingPlaceholder(name: string, post: string, value: string)
    requires name == [] || !IsSpace(name[0])
    ensures ReplaceAll("{{" + name + "}}" + post, name, value) == value + ReplaceAll(post, name, value)
  {
    var s := "{{" + name + "}}" + post;
    var b := 2 + |name|;
    assert s[2..2] == [] && s[2..b] == name && s[b..b] == [];
    PlaceholderRecognised(s, 0, 2, b, b, name);
    assert s[b + 2..] == post;
  }

  /** A text whose first character is not `{` keeps that character. */
  lemma ReplacePlainFirst(s: string, name: string, value: string)
    requires s != [] && s[0] != '{'
    ensures ReplaceAll(s, name, value) == [s[0]] + ReplaceAll(s[1..], name, value)
  {
    assert PlaceholderEnd(s, 0, name) == None;
  }

  /** With one input whose value is not blank, a placeholder for its name
      after text that opens no brace becomes the trimmed value, and the
      rest of the prompt is substituted on its own. */
  lemma SubstituteFirstPlaceholder(pre: string, post: string, input: VariableInput)
    requires !AllSpace(input.value)
    requires forall i :: 0 <= i < |pre| ==> pre[i] != '{'
    requires input.name == [] || !IsSpace(input.name[0])
    ensures SubstituteAll(pre + "{{" + input.name + "}}" + post, [input])
         == pre + Trim(input.value) + ReplaceAll(post, input.name, Trim(input.value))
  {
    SubstituteOne(pre + "{{" + input.name + "}}" + post, input);
    ReplaceFirstPlaceholder(pre, input.name, post, Trim(input.value));
  }

  /** The single placeholder of the example is replaced and the `!` after
      it is kept. */
  lemma ExampleReplaced(s: string)
    requires s == "{{ name }}!"
    ensures ReplaceAll(s, "name", "World") == "World!"
  {
    assert s[2..3] == " " && s[3..7] == "name" && s[7..8] == " ";
    PlaceholderRecognised(s, 0, 3, 7, 8, "name");
    assert s[10..] == "!";
    assert PlaceholderEnd("!", 0, "name") == None;
    assert ReplaceAll("!"[1..], "name", "World") == [];
  }

  // ---------------------------------------------------------------------
  // Validation

  datatype Validation = Validation(isValid: bool, emptyVariables: seq<string>)

  /** The names of the inputs whose values trim to nothing, in input order. */
  function EmptyNames(inputs: seq<VariableInput>): (names: seq<string>)
    ensures |names| <= |inputs|
    ensures names == [] <==> forall i :: 0 <= i < |inputs| ==> !AllSpace(inputs[i].value)
  {
    if inputs == [] then []
    else
      var init := EmptyNames(inputs[..|inputs| - 1]);
      var input := inputs[|inputs| - 1];
      assert forall i :: 0 <= i < |inputs| - 1 ==> inputs[..|inputs| - 1][i] == inputs[i];
      if AllSpace(input.value) then init + [input.name] else init
  }

  /** An input whose value is blank is listed. */
  lemma {:induction false} EmptyNamesLists(inputs: seq<VariableInput>, i: nat)
    requires i < |inputs| && AllSpace(inputs[i].value)
    ensures inputs[i].name in EmptyNames(inputs)
  {
    var n := |inputs| - 1;
    if i < n {
      EmptyNamesLists(inputs[..n], i);
    }
  }

  /** `validateVariables`. */
  method ValidateVariables(inputs: seq<VariableInput>) returns (v: Validation)
    ensures v.emptyVariables == EmptyNames(inputs)
    ensures v.isValid <==> forall i :: 0 <= i < |inputs| ==> !AllSpace(inputs[i].value)
  {
    var empty: seq<string> := [];
    var i := 0;
    while i < |inputs|
      invariant 0 <= i <= |inputs|
      invariant empty == EmptyNames(inputs[..i])
    {
      assert inputs[..i + 1][..i] == inputs[..i];
      if AllSpace(inputs[i].value) {
        empty := empty + [inputs[i].name];
      }
      i := i + 1;
    }
    assert inputs[..i] == inputs;
    v := Validation(empty == [], empty);
  }

  // ---------------------------------------------------------------------
  // A test run and its history

  /** The reply of `POST /execute`. */
  datatype ExecuteReply = ExecuteReply(success: bool, data: string, error: string)

  /** What `executeTest` sends to the history log: the original prompt,
      marked when it had variables; the reply on success, the error on
      failure, the other left empty. */
  function HistoryRecord(prompt: string, variables: seq<string>, model: string, temperature: real,
                         maxTokens: int, reply: ExecuteReply): (rec: Database.SaveHistoryRequest)
    ensures |variables| > 0 ==> rec.prompt == "[Variables] " + prompt
    ensures |variables| == 0 ==> rec.prompt == prompt
    ensures rec.success == reply.success
    ensures reply.success ==> rec.response == reply.data && rec.errorMsg == ""
    ensures !reply.success ==> rec.response == "" && rec.errorMsg == reply.error
    ensures rec.model == model && rec.temperature == temperature && rec.maxTokens == maxTokens
  {
    Database.SaveHistoryRequest(
      if |variables| > 0 then "[Variables] " + prompt else prompt,
      model, temperature, maxTokens, reply.success,
      if reply.success then reply.data else "",
      if reply.success then "" else reply.error)
  }

  /** `parseInt(field) || 1000`, given what `parseInt` made of the field
      (`None` for NaN). */
  function MaxTokensOrDefault(parsed: Option<int>): (n: int)
    ensures n != 0
    ensures parsed.Some? && parsed.value != 0 ==> n == parsed.value
    ensures parsed.None? || parsed.value == 0 ==> n == 1000
  {
    if parsed.Some? && parsed.value != 0 then parsed.value else 1000
  }

  /** The checks `executeTest` makes before sending: a prompt that trims to
      nothing is refused; a prompt with variables needs every input filled
      and is then substituted. Yields the text to send and the variables. */
  method PrepareTest(rawPrompt: string, inputs: seq<VariableInput>) returns (r: Result<(string, seq<string>), string>)
    ensures Trim(rawPrompt) == [] ==> r == Failure("Please enter a prompt first!")
    ensures Trim(rawPrompt) != [] && Variables(Trim(rawPrompt)) == [] ==>
      r == Success((Trim(rawPrompt), []))
    ensures Trim(rawPrompt) != [] && Variables(Trim(rawPrompt)) != [] && EmptyNames(inputs) != [] ==>
      r == Failure("Please fill in values for: " + JoinWith(EmptyNames(inputs), ", "))
    ensures Trim(rawPrompt) != [] && Variables(Trim(rawPrompt)) != [] && EmptyNames(inputs) == [] ==>
      r == Success((SubstituteAll(Trim(rawPrompt), inputs), Variables(Trim(rawPrompt))))
  {
    var prompt := Trim(rawPrompt);
    if prompt == [] {
      return Failure("Please enter a prompt first!");
    }
    var variables := ExtractVariables(prompt);
    var processed := prompt;
    if |variables| > 0 {
      var validation := ValidateVariables(inputs);
      if !validation.isValid {
        return Failure("Please fill in values for: " + JoinWith(validation.emptyVariables, ", "));
      }
      processed := SubstituteVariables(prompt, inputs);
    }
    return Success((processed, variables));
  }

  /** `names.join(sep)`. */
  function JoinWith(names: seq<string>, sep: string): string
  {
    if names == [] then []
    else if |names| == 1 then names[0]
    else JoinWith(names[..|names| - 1], sep) + sep + names[|names| - 1]
  }

  /** An entry of the in-page history kept when the log cannot be reached. */
  datatype LocalHistoryItem = LocalHistoryItem(
    timestamp: nat, prompt: string, temperature: real, maxTokens: int, success: bool, response: string)

  /** The fallback entry: the prompt cut to 100 UTF-16 code units (with
      "..." when longer) and the reply or, on failure, the error. */
  function LocalItem(rec: Database.SaveHistoryRequest, stamp: nat): (item: LocalHistoryItem)
    ensures |item.prompt| <= 103
    ensures Utf16Length(rec.prompt) <= 100 ==> item.prompt == rec.prompt
    ensures Utf16Length(rec.prompt) > 100 ==> item.prompt == TakeUnits(rec.prompt, 100) + "..."
    ensures InBmp(rec.prompt) && |rec.prompt| > 100 ==> item.prompt == rec.prompt[..100] + "..."
    ensures InBmp(rec.prompt) && |rec.prompt| <= 100 ==> item.prompt == rec.prompt
    ensures item.response == if rec.success then rec.response else rec.errorMsg
  {
    Utf16LengthBmp(rec.prompt);
    TakeUnitsBmp(rec.prompt, 100);
    LocalHistoryItem(stamp, Ellipsize(rec.prompt, 100), rec.temperature, rec.maxTokens, rec.success,
      if rec.success then rec.response else rec.errorMsg)
  }

  /** How `GET /history` ended. */
  datatype HistoryFetch = HistoryFetched(success: bool, data: seq<Database.HistoryItem>) | HistoryThrew

  /** `loadHistoryFromDB`: the records on success, nothing otherwise. */
  function LoadHistoryFromDB(outcome: HistoryFetch): (items: seq<Database.HistoryItem>)
    ensures outcome.HistoryFetched? && outcome.success ==> items == outcome.data
    ensures outcome.HistoryThrew? || !outcome.success ==> items == []
  {
    if outcome.HistoryFetched? && outcome.success then outcome.data else []
  }

  class AppState {
    /** The in-page history list. */
    var executionHistory: seq<LocalHistoryItem>
    /** Every record posted to the history log. */
    var historyPosts: seq<Database.SaveHistoryRequest>

    constructor ()
      ensures executionHistory == [] && historyPosts == []
    {
      executionHistory := [];
      historyPosts := [];
    }

    /** `saveToHistory`: post the record; only when the request itself
        throws, put a shortened copy at the head of the in-page list. A
        refused or failed reply is not a throw. Never raises. */
    method SaveToHistory(rec: Database.SaveHistoryRequest, threw: bool, stamp: nat)
      modifies this
      ensures historyPosts == old(historyPosts) + [rec]
      ensures threw ==> executionHistory == [LocalItem(rec, stamp)] + old(executionHistory)
      ensures !threw ==> executionHistory == old(executionHistory)
    {
      historyPosts := historyPosts + [rec];
      if threw {
        executionHistory := [LocalItem(rec, stamp)] + executionHistory;
      }
    }
  }
}
