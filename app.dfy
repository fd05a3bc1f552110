/** The browser client's main script (frontend/app.js): the provider model
    lists and their fallbacks, the model selector's selection rule, the
    average difficulty of an evaluation suite, the grouping of the prompt
    library by category, the tag editor, and the library cache with the
    save, update and delete flows that invalidate it. Network requests are
    recorded and their outcomes are inputs; toasts are returned values. */
module App {
  import opened Wrappers
  import opened Text
  import opened Seqs
  import Database
  import EvalGenerator
  import Handlers

  // ---------------------------------------------------------------------
  // Providers and model selectors

  datatype ModelOption = ModelOption(value: string, name: string, context: string)

  const OpenAIModels: seq<ModelOption> := [
    ModelOption("gpt-4", "GPT-4", "8K"),
    ModelOption("gpt-4-turbo", "GPT-4 Turbo", "128K"),
    ModelOption("gpt-3.5-turbo", "GPT-3.5 Turbo", "16K"),
    ModelOption("o4-mini", "O4 Mini", "128K")]
  const AzureModels: seq<ModelOption> := [
    ModelOption("gpt-4.1", "GPT-4.1", "200K"),
    ModelOption("o3", "O3", "1M")]
  const AnthropicModels: seq<ModelOption> := [
    ModelOption("claude-3-5-sonnet-20241022", "Claude 3.5 Sonnet", "200K"),
    ModelOption("claude-3-haiku-20240307", "Claude 3 Haiku", "200K"),
    ModelOption("claude-3-opus-20240229", "Claude 3 Opus", "200K")]

  const ProviderModels: map<string, seq<ModelOption>> :=
    map["openai" := OpenAIModels, "azure-openai" := AzureModels, "anthropic" := AnthropicModels]

  const ProviderNames: map<string, string> :=
    map["openai" := "OpenAI", "azure-openai" := "Azure OpenAI", "anthropic" := "Anthropic"]

  /** `getProviderDisplayName`: the mapped name, or the id itself. */
  function ProviderDisplayName(provider: string): (name: string)
    ensures provider in ProviderNames ==> name == ProviderNames[provider]
    ensures provider !in ProviderNames ==> name == provider
  {
    if provider in ProviderNames then ProviderNames[provider] else provider
  }

  /** The models `updateModelDropdowns` offers: those of the current
      provider, which defaults to azure-openai when unset, with the
      azure-openai list for an unknown provider. */
  function DropdownModels(currentProvider: Option<string>): (models: seq<ModelOption>)
    ensures models != []
    ensures currentProvider.Some? && currentProvider.value in ProviderModels ==> models == ProviderModels[currentProvider.value]
    ensures currentProvider.None? || currentProvider.value !in ProviderModels ==> models == AzureModels
  {
    var provider := if currentProvider.None? || currentProvider.value == "" then "azure-openai" else currentProvider.value;
    if provider in ProviderModels then ProviderModels[provider] else AzureModels
  }

  /** The models `populateTestModelDropdown` and `populateEvalModelDropdown`
      offer: the current provider's, with the anthropic list otherwise. */
  function PopulateModels(currentProvider: Option<string>): (models: seq<ModelOption>)
    ensures models != []
    ensures currentProvider.Some? && currentProvider.value in ProviderModels ==> models == ProviderModels[currentProvider.value]
    ensures currentProvider.None? || currentProvider.value !in ProviderModels ==> models == AnthropicModels
  {
    if currentProvider.Some? && currentProvider.value in ProviderModels then ProviderModels[currentProvider.value]
    else AnthropicModels
  }

  /** A select element: its options and its value ("" with no options). */
  datatype Dropdown = Dropdown(options: seq<ModelOption>, value: string)

  predicate Offers(models: seq<ModelOption>, value: string) {
    exists i :: 0 <= i < |models| && models[i].value == value
  }

  /** `updateModelDropdown`: the options are replaced by the new models; the
      current value survives when still offered, otherwise the first model
      is selected; an empty list leaves an empty select. */
  function UpdateModelDropdown(currentValue: string, models: seq<ModelOption>): (d: Dropdown)
    ensures models == [] ==> d == Dropdown([], "")
    ensures models != [] ==> d.options == models && Offers(models, d.value)
    ensures Offers(models, currentValue) ==> d.value == currentValue
    ensures !Offers(models, currentValue) && models != [] ==> d.value == models[0].value
  {
    if models == [] then Dropdown([], "")
    else if Offers(models, currentValue) then Dropdown(models, currentValue)
    else Dropdown(models, models[0].value)
  }

  /** Whatever the provider and previous selection, the model selector ends
      up selecting a model of the list it shows, and keeps a selection that
      list still offers. */
  lemma SelectionAlwaysOffered(currentProvider: Option<string>, currentValue: string)
    ensures var models := DropdownModels(currentProvider);
      var d := UpdateModelDropdown(currentValue, models);
      d.options == models && Offers(models, d.value)
      && (Offers(models, currentValue) ==> d.value == currentValue)
  {
  }

  /** Switching from Azure to Anthropic drops an Azure selection in favour
      of the first Anthropic model. */
  lemma SwitchProviderExample()
    ensures UpdateModelDropdown("o3", DropdownModels(Some("anthropic"))).value == "claude-3-5-sonnet-20241022"
    ensures UpdateModelDropdown("o3", DropdownModels(Some("bogus"))).value == "o3"
  {
    var a := AnthropicModels;
    assert !Offers(a, "o3") by {
      forall i | 0 <= i < |a| ensures a[i].value != "o3" {
        assert a[i].value[0] == 'c';
      }
    }
    assert AzureModels[1].value == "o3";
  }

  // ---------------------------------------------------------------------
  // Average difficulty

  /** The score of one difficulty; an unknown one counts as medium. */
  function Score(difficulty: string): (s: nat)
    ensures 1 <= s <= 4
  {
    if difficulty == "easy" then 1
    else if difficulty == "medium" then 2
    else if difficulty == "hard" then 3
    else if difficulty == "adversarial" then 4
    else 2
  }

  function TotalScore(cases: seq<EvalGenerator.TestCase>): (t: nat)
    ensures |cases| <= t <= 4 * |cases|
  {
    if cases == [] then 0 else TotalScore(cases[..|cases| - 1]) + Score(cases[|cases| - 1].difficulty)
  }

  /** `calculateAverageDifficulty`: the bucket of the mean score. The float
      comparisons `total / n <= 1.5` etc. are stated exactly as
      `2 * total <= 3 * n` etc. */
  function AverageDifficulty(cases: seq<EvalGenerator.TestCase>): (bucket: string)
    ensures cases == [] <==> bucket == "N/A"
    ensures cases != [] ==> (
      var t, n := TotalScore(cases), |cases|;
      && (bucket == "Easy" <==> 2 * t <= 3 * n)
      && (bucket == "Medium" <==> 3 * n < 2 * t <= 5 * n)
      && (bucket == "Hard" <==> 5 * n < 2 * t <= 7 * n)
      && (bucket == "Expert" <==> 7 * n < 2 * t))
  {
    if cases == [] then "N/A"
    else
      var t, n := TotalScore(cases), |cases|;
      if 2 * t <= 3 * n then "Easy"
      else if 2 * t <= 5 * n then "Medium"
      else if 2 * t <= 7 * n then "Hard"
      else "Expert"
  }

  lemma {:induction false} TotalOfUniform(cases: seq<EvalGenerator.TestCase>, d: string)
    requires forall i :: 0 <= i < |cases| ==> cases[i].difficulty == d
    ensures TotalScore(cases) == Score(d) * |cases|
  {
    if cases != [] {
      TotalOfUniform(cases[..|cases| - 1], d);
    }
  }

  /** A suite whose cases all share one difficulty is labelled by it:
      easy gives Easy, medium (or an unknown level) Medium, hard Hard and
      adversarial Expert. */
  lemma UniformSuite(cases: seq<EvalGenerator.TestCase>, d: string)
    requires cases != []
    requires forall i :: 0 <= i < |cases| ==> cases[i].difficulty == d
    ensures d == "easy" ==> AverageDifficulty(cases) == "Easy"
    ensures d == "hard" ==> AverageDifficulty(cases) == "Hard"
    ensures d == "adversarial" ==> AverageDifficulty(cases) == "Expert"
    ensures d != "easy" && d != "hard" && d != "adversarial" ==> AverageDifficulty(cases) == "Medium"
  {
    TotalOfUniform(cases, d);
  }

  // ---------------------------------------------------------------------
  // Library grouping

  /** The group a prompt is listed under. */
  function CategoryKey(p: Database.SavedPrompt): (key: string)
    ensures key != ""
    ensures p.category != "" ==> key == p.category
  {
    if p.category == "" then "General" else p.category
  }

  datatype Group = Group(category: string, prompts: seq<Database.SavedPrompt>)

  /** Add a prompt to the group of its category, opening the group at the
      end when the category is new. */
  function Place(groups: seq<Group>, p: Database.SavedPrompt): (r: seq<Group>)
  {
    if groups == [] then [Group(CategoryKey(p), [p])]
    else if groups[0].category == CategoryKey(p) then [groups[0].(prompts := groups[0].prompts + [p])] + groups[1..]
    else [groups[0]] + Place(groups[1..], p)
  }

  /** The library grouped as the `reduce` in `renderLibraryTab` builds it,
      groups in order of first appearance. */
  function GroupByCategory(prompts: seq<Database.SavedPrompt>): seq<Group> {
    if prompts == [] then [] else Place(GroupByCategory(prompts[..|prompts| - 1]), prompts[|prompts| - 1])
  }

  function Categories(groups: seq<Group>): (cs: seq<string>)
    ensures |cs| == |groups|
    ensures forall j :: 0 <= j < |groups| ==> cs[j] == groups[j].category
  {
    if groups == [] then [] else [groups[0].category] + Categories(groups[1..])
  }

  function Keys(prompts: seq<Database.SavedPrompt>): (ks: seq<string>)
    ensures |ks| == |prompts|
    ensures forall i :: 0 <= i < |prompts| ==> ks[i] == CategoryKey(prompts[i])
  {
    seq(|prompts|, i requires 0 <= i < |prompts| => CategoryKey(prompts[i]))
  }

  /** The prompts of one category, in library order. */
  function InCategory(prompts: seq<Database.SavedPrompt>, c: string): seq<Database.SavedPrompt> {
    if prompts == [] then []
    else
      var last := prompts[|prompts| - 1];
      InCategory(prompts[..|prompts| - 1], c) + (if CategoryKey(last) == c then [last] else [])
  }

  function Total(groups: seq<Group>): nat {
    if groups == [] then 0 else |groups[0].prompts| + Total(groups[1..])
  }

  /** Placing a prompt adds one to the number of prompts grouped. */
  lemma {:induction false} PlaceTotal(groups: seq<Group>, p: Database.SavedPrompt)
    ensures Total(Place(groups, p)) == Total(groups) + 1
  {
    if groups != [] && groups[0].category != CategoryKey(p) {
      PlaceTotal(groups[1..], p);
      var placed := Place(groups[1..], p);
      assert ([groups[0]] + placed)[1..] == placed;
    } else if groups != [] {
      var g := groups[0].(prompts := groups[0].prompts + [p]);
      assert ([g] + groups[1..])[1..] == groups[1..];
    }
  }

  lemma CategoriesCons(g: Group, rest: seq<Group>)
    ensures Categories([g] + rest) == [g.category] + Categories(rest)
  {
    assert ([g] + rest)[1..] == rest;
  }

  /** Placing a prompt opens a group at the end exactly when its category
      is new. */
  lemma {:induction false} PlaceCategories(groups: seq<Group>, p: Database.SavedPrompt)
    ensures Categories(Place(groups, p))
      == if CategoryKey(p) in Categories(groups) then Categories(groups) else Categories(groups) + [CategoryKey(p)]
  {
    if groups != [] {
      var g, rest := groups[0], groups[1..];
      assert groups == [g] + rest;
      CategoriesCons(g, rest);
      if g.category != CategoryKey(p) {
        PlaceCategories(rest, p);
        assert Place(groups, p) == [g] + Place(rest, p);
        CategoriesCons(g, Place(rest, p));
      } else {
        var g' := g.(prompts := g.prompts + [p]);
        assert Place(groups, p) == [g'] + rest;
        CategoriesCons(g', rest);
      }
    }
  }

  /** With distinct categories, the prompt goes to the end of its own
      category's group and every other group is unchanged. */
  lemma {:induction false} PlacePrompts(groups: seq<Group>, p: Database.SavedPrompt)
    requires NoDup(Categories(groups))
    ensures |Place(groups, p)| >= |groups|
    ensures forall j :: 0 <= j < |groups| ==> (Place(groups, p)[j].prompts
      == groups[j].prompts + (if groups[j].category == CategoryKey(p) then [p] else []))
  {
    if groups != [] {
      var g, rest := groups[0], groups[1..];
      assert groups == [g] + rest;
      CategoriesCons(g, rest);
      if g.category != CategoryKey(p) {
        assert NoDup(Categories(rest)) by {
          forall i, j | 0 <= i < j < |rest| ensures Categories(rest)[i] != Categories(rest)[j] {
            assert Categories(groups)[i + 1] == Categories(rest)[i];
            assert Categories(groups)[j + 1] == Categories(rest)[j];
          }
        }
        PlacePrompts(rest, p);
        PlacePromptsPast(g, rest, p);
      } else {
        forall j | 0 <= j < |rest| ensures rest[j].category != CategoryKey(p) {
          assert Categories(groups)[0] == CategoryKey(p) && Categories(groups)[j + 1] == rest[j].category;
        }
        PlacePromptsHere(g, rest, p);
      }
    }
  }

  /** The step of `PlacePrompts` past a group of another category. */
  lemma {:induction false} PlacePromptsPast(g: Group, rest: seq<Group>, p: Database.SavedPrompt)
    requires g.category != CategoryKey(p)
    requires |Place(rest, p)| >= |rest|
    requires forall j :: 0 <= j < |rest| ==> (Place(rest, p)[j].prompts
      == rest[j].prompts + (if rest[j].category == CategoryKey(p) then [p] else []))
    ensures |Place([g] + rest, p)| >= |rest| + 1
    ensures forall j :: 0 <= j < |rest| + 1 ==> (Place([g] + rest, p)[j].prompts
      == ([g] + rest)[j].prompts + (if ([g] + rest)[j].category == CategoryKey(p) then [p] else []))
  {
    var groups := [g] + rest;
    var placed := Place(rest, p);
    assert groups[1..] == rest;
    assert Place(groups, p) == [g] + placed;
    forall j | 1 <= j < |groups|
      ensures Place(groups, p)[j].prompts
        == groups[j].prompts + (if groups[j].category == CategoryKey(p) then [p] else [])
    {
      assert Place(groups, p)[j] == placed[j - 1] && groups[j] == rest[j - 1];
    }
  }

  /** The step of `PlacePrompts` at the group of the prompt's category,
      when no later group has that category. */
  lemma {:induction false} PlacePromptsHere(g: Group, rest: seq<Group>, p: Database.SavedPrompt)
    requires g.category == CategoryKey(p)
    requires forall j :: 0 <= j < |rest| ==> rest[j].category != CategoryKey(p)
    ensures |Place([g] + rest, p)| >= |rest| + 1
    ensures forall j :: 0 <= j < |rest| + 1 ==> (Place([g] + rest, p)[j].prompts
      == ([g] + rest)[j].prompts + (if ([g] + rest)[j].category == CategoryKey(p) then [p] else []))
  {
    var groups := [g] + rest;
    assert groups[1..] == rest;
    var g' := g.(prompts := g.prompts + [p]);
    assert Place(groups, p) == [g'] + rest;
    forall j | 1 <= j < |groups|
      ensures Place(groups, p)[j].prompts == groups[j].prompts
    {
      assert Place(groups, p)[j] == rest[j - 1] && groups[j] == rest[j - 1];
    }
  }

  /** A prompt of a new category ends up alone in the new last group. */
  lemma {:induction false} PlaceNew(groups: seq<Group>, p: Database.SavedPrompt)
    requires CategoryKey(p) !in Categories(groups)
    ensures |Place(groups, p)| == |groups| + 1
    ensures Place(groups, p)[|groups|] == Group(CategoryKey(p), [p])
  {
    if groups != [] {
      var rest := groups[1..];
      assert Categories(groups)[0] == groups[0].category;
      assert CategoryKey(p) !in Categories(rest) by {
        forall j | 0 <= j < |rest| ensures Categories(rest)[j] != CategoryKey(p) {
          assert Categories(rest)[j] == Categories(groups)[j + 1];
        }
      }
      PlaceNew(rest, p);
    }
  }

  /** Placing a prompt, all at once: one more prompt in total, a new group
      at the end only for a new category, the prompt appended to its own
      category's group and the other groups unchanged. */
  lemma PlaceShape(groups: seq<Group>, p: Database.SavedPrompt)
    requires NoDup(Categories(groups))
    ensures Total(Place(groups, p)) == Total(groups) + 1
    ensures Categories(Place(groups, p))
      == if CategoryKey(p) in Categories(groups) then Categories(groups) else Categories(groups) + [CategoryKey(p)]
    ensures forall j :: 0 <= j < |groups| ==> (Place(groups, p)[j].prompts
      == groups[j].prompts + (if groups[j].category == CategoryKey(p) then [p] else []))
    ensures CategoryKey(p) !in Categories(groups) ==> Place(groups, p)[|groups|].prompts == [p]
  {
    PlaceTotal(groups, p);
    PlaceCategories(groups, p);
    PlacePrompts(groups, p);
    if CategoryKey(p) !in Categories(groups) {
      PlaceNew(groups, p);
    }
  }

  lemma {:induction false} KeysSnoc(prompts: seq<Database.SavedPrompt>, p: Database.SavedPrompt)
    ensures Keys(prompts + [p]) == Keys(prompts) + [CategoryKey(p)]
  {
  }

  lemma {:induction false} InCategoryNone(prompts: seq<Database.SavedPrompt>, c: string)
    requires c !in Keys(prompts)
    ensures InCategory(prompts, c) == []
  {
    if prompts != [] {
      var init := prompts[..|prompts| - 1];
      assert Keys(prompts)[|prompts| - 1] == CategoryKey(prompts[|prompts| - 1]);
      assert c !in Keys(init) by {
        forall i | 0 <= i < |init| ensures Keys(init)[i] != c {
          assert Keys(init)[i] == Keys(prompts)[i];
        }
      }
      InCategoryNone(init, c);
    }
  }

  lemma {:induction false} GroupNames(prompts: seq<Database.SavedPrompt>)
    ensures Categories(GroupByCategory(prompts)) == Dedup(Keys(prompts))
  {
    if prompts != [] {
      var init, p := prompts[..|prompts| - 1], prompts[|prompts| - 1];
      assert prompts == init + [p];
      GroupNames(init);
      PlaceShape(GroupByCategory(init), p);
      KeysSnoc(init, p);
      DedupSnoc(Keys(init), CategoryKey(p));
    }
  }

  lemma {:induction false} GroupSizes(prompts: seq<Database.SavedPrompt>)
    ensures Total(GroupByCategory(prompts)) == |prompts|
  {
    if prompts != [] {
      var init := prompts[..|prompts| - 1];
      GroupSizes(init);
      GroupNames(init);
      PlaceShape(GroupByCategory(init), prompts[|prompts| - 1]);
    }
  }

  /** Appending a prompt to the library adds it to the end of its own
      category and to no other. */
  lemma InCategorySnoc(prompts: seq<Database.SavedPrompt>, p: Database.SavedPrompt, c: string)
    ensures InCategory(prompts + [p], c) == InCategory(prompts, c) + (if CategoryKey(p) == c then [p] else [])
  {
    assert (prompts + [p])[..|prompts|] == prompts;
  }

  /** An existing group, after the next prompt is placed, still holds
      exactly its category's prompts. */
  lemma ContentsKept(init: seq<Database.SavedPrompt>, p: Database.SavedPrompt, next: seq<Database.SavedPrompt>,
                      gs: seq<Group>, groups: seq<Group>, j: nat)
    requires next == init + [p] && groups == Place(gs, p)
    requires j < |gs| && NoDup(Categories(gs))
    requires GroupsHold(init, gs)
    ensures j < |groups|
    ensures groups[j].prompts == InCategory(next, groups[j].category)
  {
    PlaceCategories(gs, p);
    PlacePrompts(gs, p);
    assert Categories(groups)[j] == Categories(gs)[j];
    assert gs[j].prompts == InCategory(init, gs[j].category);
    InCategorySnoc(init, p, gs[j].category);
  }

  /** The prompts of a category that had none before are the new prompt
      alone. */
  lemma ContentsNew(init: seq<Database.SavedPrompt>, p: Database.SavedPrompt)
    requires CategoryKey(p) !in Keys(init)
    ensures InCategory(init + [p], CategoryKey(p)) == [p]
  {
    InCategoryNone(init, CategoryKey(p));
    InCategorySnoc(init, p, CategoryKey(p));
  }

  /** Each group holds exactly the prompts of its category, in library
      order. */
  predicate GroupsHold(prompts: seq<Database.SavedPrompt>, groups: seq<Group>) {
    forall j :: 0 <= j < |groups| ==> groups[j].prompts == InCategory(prompts, groups[j].category)
  }

  /** One step of the grouping: groups that hold their categories' prompts
      still do once the next prompt is placed. */
  lemma ContentsStep(init: seq<Database.SavedPrompt>, p: Database.SavedPrompt, next: seq<Database.SavedPrompt>,
                      gs: seq<Group>, groups: seq<Group>)
    requires next == init + [p] && groups == Place(gs, p)
    requires Categories(gs) == Dedup(Keys(init))
    requires GroupsHold(init, gs)
    ensures GroupsHold(next, groups)
  {
    forall j | 0 <= j < |groups| ensures groups[j].prompts == InCategory(next, groups[j].category) {
      if j < |gs| {
        ContentsKept(init, p, next, gs, groups, j);
      } else {
        PlaceCategories(gs, p);
        ContentsLast(init, p, next, gs, groups, j);
      }
    }
  }

  /** A group opened by the placed prompt holds that prompt alone, which
      is all its category has. */
  lemma ContentsLast(init: seq<Database.SavedPrompt>, p: Database.SavedPrompt, next: seq<Database.SavedPrompt>,
                     gs: seq<Group>, groups: seq<Group>, j: nat)
    requires next == init + [p] && groups == Place(gs, p)
    requires Categories(gs) == Dedup(Keys(init))
    requires CategoryKey(p) !in Categories(gs) && j == |gs|
    ensures j < |groups|
    ensures groups[j].prompts == InCategory(next, groups[j].category)
  {
    assert CategoryKey(p) !in Keys(init);
    PlaceNew(gs, p);
    ContentsNew(init, p);
  }

  lemma {:induction false} GroupContents(prompts: seq<Database.SavedPrompt>)
    ensures GroupsHold(prompts, GroupByCategory(prompts))
  {
    if prompts != [] {
      var init, p := prompts[..|prompts| - 1], prompts[|prompts| - 1];
      var gs := GroupByCategory(init);
      assert GroupByCategory(prompts) == Place(gs, p);
      assert prompts == init + [p];
      assert GroupsHold(init, gs) && Categories(gs) == Dedup(Keys(init)) by {
        GroupContents(init);
        GroupNames(init);
      }
      ContentsStep(init, p, prompts, gs, GroupByCategory(prompts));
    }
  }

  /** Every prompt is listed exactly once: the group names are the prompts'
      categories ('General' for none), each once in order of first
      appearance; each group holds exactly its category's prompts in
      library order; and the group sizes add up to the library size. */
  lemma GroupingPartitions(prompts: seq<Database.SavedPrompt>)
    ensures var groups := GroupByCategory(prompts);
      && Categories(groups) == Dedup(Keys(prompts))
      && NoDup(Categories(groups))
      && GroupsHold(prompts, groups)
      && Total(groups) == |prompts|
  {
    GroupNames(prompts);
    GroupSizes(prompts);
    GroupContents(prompts);
  }

  // ---------------------------------------------------------------------
  // Tags

  /** `addTag` on the editor's current tags, which are the trimmed texts
      of the tag elements: a blank tag, or one equal as given to a present
      tag, changes nothing; any other is shown, and so read back, trimmed. */
  function AddTag(tags: seq<string>, tag: string): (r: seq<string>)
    ensures AllSpace(tag) || tag in tags ==> r == tags
    ensures !AllSpace(tag) && tag !in tags ==> r == tags + [Trim(tag)]
  {
    if AllSpace(tag) || tag in tags then tags else tags + [Trim(tag)]
  }

  /** Adding tags never creates a blank tag; a tag typed into the input,
      which is trimmed before the call, never creates a duplicate and is
      present afterwards. */
  lemma AddTagKeepsTagsDistinct(tags: seq<string>, tag: string)
    requires NoDup(tags) && forall i :: 0 <= i < |tags| ==> !AllSpace(tags[i])
    ensures var r := AddTag(tags, tag);
      && (forall i :: 0 <= i < |r| ==> !AllSpace(r[i]))
      && (Trim(tag) == tag ==> NoDup(r) && (!AllSpace(tag) ==> tag in r))
  {
    var r := AddTag(tags, tag);
    if r != tags {
      TrimNotBlank(tag);
      forall i | 0 <= i < |r| ensures !AllSpace(r[i]) {
        if i < |tags| {
          assert r[i] == tags[i];
        }
      }
      if Trim(tag) == tag {
        forall i, j | 0 <= i < j < |r| ensures r[i] != r[j] {
          if j == |tags| {
            assert r[i] == tags[i] && r[j] == tag;
          } else {
            assert r[i] == tags[i] && r[j] == tags[j];
          }
        }
        assert r[|tags|] == tag;
      }
    }
  }

  /** A tag that is not blank does not trim to a blank tag. */
  lemma TrimNotBlank(s: string)
    requires !AllSpace(s)
    ensures !AllSpace(Trim(s))
  {
    assert !IsSpace(Trim(s)[0]);
  }

  /** A stored tag with whitespace around it, loaded into the editor next
      to its trimmed twin (" a" next to "a"), is not recognised as present
      and is added a second time. */
  lemma AddTagUntrimmedDuplicates(tags: seq<string>, tag: string)
    requires !AllSpace(tag) && tag !in tags && Trim(tag) in tags
    ensures !NoDup(AddTag(tags, tag))
  {
    var r := AddTag(tags, tag);
    var i :| 0 <= i < |tags| && tags[i] == Trim(tag);
    assert r[i] == r[|tags|];
  }

  // ---------------------------------------------------------------------
  // The prompt library cache

  /** The values of the save dialog's fields, untrimmed. */
  datatype PromptForm = PromptForm(title: string, description: string, category: string, tags: seq<string>, content: string)

  datatype LibraryRequest =
    | ListPrompts
    | PostPrompt(body: Database.SavePromptRequest)
    | PutPrompt(id: int, update: Database.UpdatePromptRequest)
    | DeletePromptRequest(id: int)

  /** What `fetch('/api/prompts')` produced: a decoded answer, possibly
      without data, or an exception. */
  datatype ListOutcome = Listed(success: bool, data: Option<seq<Database.SavedPrompt>>) | ListThrew

  /** The answer to a write: success, a refusal with its error, or an
      exception. */
  datatype WriteOutcome = WriteOk | WriteRefused(error: string) | WriteThrew

  datatype Toast = Toast(message: string, isError: bool)

  /** The library fields written to on success or on any failure. */
  function ListedPrompts(outcome: ListOutcome): (ps: seq<Database.SavedPrompt>)
    ensures outcome.Listed? && outcome.success ==> ps == outcome.data.GetOr([])
    ensures !(outcome.Listed? && outcome.success) ==> ps == []
  {
    match outcome
    case Listed(success, data) => if success then data.GetOr([]) else []
    case ListThrew => []
  }

  /** The request body of a save: trimmed fields, 'General' for an empty
      category. */
  function SaveBody(form: PromptForm): (body: Database.SavePromptRequest)
    ensures body.title == Trim(form.title) && body.content == Trim(form.content)
    ensures body.description == Trim(form.description) && body.tags == form.tags
    ensures body.category != "" && (!AllSpace(form.category) ==> body.category == Trim(form.category))
  {
    var category := Trim(form.category);
    Database.SavePromptRequest(Trim(form.title), Trim(form.content), Trim(form.description),
      if category == "" then "General" else category, form.tags)
  }

  /** The client's check, which runs on the trimmed title and content, the
      title first. */
  function FormError(form: PromptForm): (e: Option<string>)
    ensures AllSpace(form.title) ==> e == Some("Please enter a title")
    ensures !AllSpace(form.title) && AllSpace(form.content) ==> e == Some("Please enter prompt content")
    ensures e.None? <==> !AllSpace(form.title) && !AllSpace(form.content)
  {
    if AllSpace(form.title) then Some("Please enter a title")
    else if AllSpace(form.content) then Some("Please enter prompt content")
    else None
  }

  /** A form the client accepts is also accepted by the server's check,
      and it is stored with a non-empty category. */
  lemma AcceptedFormPassesServer(form: PromptForm)
    requires FormError(form).None?
    ensures Handlers.PromptFieldsError(SaveBody(form).title, SaveBody(form).content).None?
    ensures SaveBody(form).category != ""
  {
  }

  class PromptLibrary {
    var savedPrompts: seq<Database.SavedPrompt>
    var loaded: bool
    /** The requests sent, oldest first. */
    var requests: seq<LibraryRequest>

    constructor ()
      ensures savedPrompts == [] && !loaded && requests == []
    {
      savedPrompts := [];
      loaded := false;
      requests := [];
    }

    /** `loadPromptLibrary`: whatever happens the cache ends loaded and
        holds a list, empty on any failure. */
    method LoadPromptLibrary(outcome: ListOutcome)
      modifies this
      ensures loaded
      ensures savedPrompts == ListedPrompts(outcome)
      ensures requests == old(requests) + [ListPrompts]
    {
      requests := requests + [ListPrompts];
      match outcome {
        case Listed(success, data) =>
          if success {
            savedPrompts := data.GetOr([]);
          } else {
            savedPrompts := [];
          }
        case ListThrew =>
          savedPrompts := [];
      }
      loaded := true;
    }

    /** After a successful write the cache is invalidated and a reload is
        requested; it is not awaited, so its answer arrives later through
        `LoadPromptLibrary`. */
    method Invalidate()
      modifies this
      ensures !loaded && savedPrompts == old(savedPrompts)
      ensures requests == old(requests) + [ListPrompts]
    {
      loaded := false;
      requests := requests + [ListPrompts];
    }

    /** The part the three writes share: the request is sent, a success
        shows `ok` and invalidates the cache, a refusal shows `failed`
        followed by the server's error, and a thrown fetch shows `threw`. */
    method SendWrite(request: LibraryRequest, outcome: WriteOutcome, ok: string, failed: string, threw: string)
      returns (toast: Toast)
      modifies this
      ensures savedPrompts == old(savedPrompts)
      ensures outcome.WriteOk? ==>
        toast == Toast(ok, false) && !loaded && requests == old(requests) + [request, ListPrompts]
      ensures !outcome.WriteOk? ==>
        toast.isError && loaded == old(loaded) && requests == old(requests) + [request]
      ensures outcome.WriteRefused? ==> toast.message == failed + outcome.error
      ensures outcome.WriteThrew? ==> toast.message == threw
    {
      requests := requests + [request];
      match outcome {
        case WriteOk =>
          Invalidate();
          toast := Toast(ok, false);
        case WriteRefused(e) =>
          toast := Toast(failed + e, true);
        case WriteThrew =>
          toast := Toast(threw, true);
      }
    }

    /** `savePrompt`. */
    method SavePrompt(form: PromptForm, outcome: WriteOutcome) returns (toast: Toast)
      modifies this
      ensures FormError(form).Some? ==> (
        && toast == Toast(FormError(form).value, true)
        && requests == old(requests) && loaded == old(loaded) && savedPrompts == old(savedPrompts))
      ensures FormError(form).None? && outcome.WriteOk? ==> (
        && toast == Toast("Prompt saved successfully!", false)
        && !loaded && savedPrompts == old(savedPrompts)
        && requests == old(requests) + [PostPrompt(SaveBody(form)), ListPrompts])
      ensures FormError(form).None? && !outcome.WriteOk? ==> (
        && toast.isError
        && (outcome.WriteRefused? ==> toast.message == "Failed to save prompt: " + outcome.error)
        && loaded == old(loaded) && savedPrompts == old(savedPrompts)
        && requests == old(requests) + [PostPrompt(SaveBody(form))])
    {
      var invalid := FormError(form);
      if invalid.Some? {
        return Toast(invalid.value, true);
      }
      toast := SendWrite(PostPrompt(SaveBody(form)), outcome,
        "Prompt saved successfully!", "Failed to save prompt: ", "Error saving prompt");
    }

    /** `updatePrompt`: the same checks; the body carries no id, so the
        server sees 0 there and uses the id from the path. */
    method UpdatePrompt(id: int, form: PromptForm, outcome: WriteOutcome) returns (toast: Toast)
      modifies this
      ensures FormError(form).Some? ==> (
        && toast == Toast(FormError(form).value, true)
        && requests == old(requests) && loaded == old(loaded) && savedPrompts == old(savedPrompts))
      ensures FormError(form).None? ==>
        var body := SaveBody(form);
        var put := PutPrompt(id, Database.UpdatePromptRequest(0, body.title, body.content, body.description, body.category, body.tags));
        && (outcome.WriteOk? ==>
              toast == Toast("Prompt updated successfully!", false)
              && !loaded && requests == old(requests) + [put, ListPrompts])
        && (!outcome.WriteOk? ==>
              toast.isError && loaded == old(loaded) && requests == old(requests) + [put]
              && (outcome.WriteRefused? ==> toast.message == "Failed to update prompt: " + outcome.error))
        && savedPrompts == old(savedPrompts)
    {
      var invalid := FormError(form);
      if invalid.Some? {
        return Toast(invalid.value, true);
      }
      var body := SaveBody(form);
      var put := PutPrompt(id, Database.UpdatePromptRequest(0, body.title, body.content, body.description, body.category, body.tags));
      toast := SendWrite(put, outcome,
        "Prompt updated successfully!", "Failed to update prompt: ", "Error updating prompt");
    }

    /** `deletePrompt`: nothing happens unless the user confirms. */
    method DeletePrompt(id: int, confirmed: bool, outcome: WriteOutcome) returns (toast: Option<Toast>)
      modifies this
      ensures !confirmed ==> toast == None && requests == old(requests) && loaded == old(loaded)
      ensures confirmed && outcome.WriteOk? ==>
        toast == Some(Toast("Prompt deleted successfully!", false))
        && !loaded && requests == old(requests) + [DeletePromptRequest(id), ListPrompts]
      ensures confirmed && !outcome.WriteOk? ==>
        toast.Some? && toast.value.isError && loaded == old(loaded)
        && requests == old(requests) + [DeletePromptRequest(id)]
      ensures savedPrompts == old(savedPrompts)
    {
      if !confirmed {
        return None;
      }
      var shown := SendWrite(DeletePromptRequest(id), outcome,
        "Prompt deleted successfully!", "Failed to delete prompt: ", "Error deleting prompt");
      toast := Some(shown);
    }
  }
}
