/**
 * The prompt box with attachments: the typed prompt, the attached files, the submit rule, the
 * model pickers grouped by category and the tool toggles.
 */
module PromptInput {
  import opened Wrappers
  import opened Text
  import opened ModelsConfig
  import Models
  import Grouping
  import PropertyOrder
  import opened ChatComponent

  /** An attached file, as far as the prompt box looks at it. */
  datatype FileRef = FileRef(name: string, contentType: string)

  /** One call of the `onSubmit` prop: the prompt as typed and the files attached at that moment. */
  datatype SubmitCall = SubmitCall(prompt: string, files: seq<FileRef>)

  /** `prev.filter((_, i) => i !== index)`. */
  function RemoveAt<T>(s: seq<T>, index: int): (r: seq<T>)
    ensures |r| == if 0 <= index < |s| then |s| - 1 else |s|
  {
    if |s| == 0 then []
    else RemoveAt(s[..|s| - 1], index) + (if |s| - 1 != index then [s[|s| - 1]] else [])
  }

  /** Removing a position cuts exactly that element out; any other index leaves the list as it is. */
  lemma {:induction false} RemoveAtSplice<T>(s: seq<T>, index: int)
    ensures 0 <= index < |s| ==> RemoveAt(s, index) == s[..index] + s[index + 1..]
    ensures !(0 <= index < |s|) ==> RemoveAt(s, index) == s
  {
    if |s| > 0 {
      var init := s[..|s| - 1];
      RemoveAtSplice(init, index);
      if 0 <= index < |init| {
        assert s == init + [s[|s| - 1]];
        SpliceSnoc(init, s[|s| - 1], index);
      } else if index == |s| - 1 {
        assert s[..index] == init;
      } else {
        assert s == init + [s[|s| - 1]];
      }
    }
  }

  /** Cutting out a position before the last element commutes with appending that element. */
  lemma SpliceSnoc<T>(init: seq<T>, last: T, index: nat)
    requires index < |init|
    ensures (init + [last])[..index] + (init + [last])[index + 1..] == (init[..index] + init[index + 1..]) + [last]
  {
    assert (init + [last])[..index] == init[..index];
    assert (init + [last])[index + 1..] == init[index + 1..] + [last];
  }

  class PromptInputState {
    var prompt: string
    var files: seq<FileRef>
    /** The calls made to the `onSubmit` prop so far. */
    var submitted: seq<SubmitCall>

    /** Every prompt handed on is non-blank after trimming. */
    predicate Valid()
      reads this
    {
      forall i :: 0 <= i < |submitted| ==> !AllWhitespace(submitted[i].prompt)
    }

    constructor ()
      ensures Valid()
      ensures prompt == "" && files == [] && submitted == []
    {
      prompt := "";
      files := [];
      submitted := [];
    }

    /** `onValueChange`: the textarea's new text. */
    method SetPrompt(text: string)
      modifies this
      ensures prompt == text && files == old(files) && submitted == old(submitted)
    {
      prompt := text;
    }

    /** The attachment picker replaces the file list. */
    method SetFiles(fs: seq<FileRef>)
      modifies this
      ensures files == fs && prompt == old(prompt) && submitted == old(submitted)
    {
      files := fs;
    }

    /** `removeAllFiles` */
    method RemoveAllFiles()
      modifies this
      ensures files == [] && prompt == old(prompt) && submitted == old(submitted)
    {
      files := [];
    }

    /** `handleRemoveFile`: drops the file at `index`. */
    method HandleRemoveFile(index: int)
      modifies this
      ensures files == RemoveAt(old(files), index)
      ensures 0 <= index < |old(files)| ==> files == old(files)[..index] + old(files)[index + 1..]
      ensures prompt == old(prompt) && submitted == old(submitted)
    {
      RemoveAtSplice(files, index);
      files := RemoveAt(files, index);
    }

    /**
     * `handleOnSubmit`: a prompt that is blank after trimming is ignored; otherwise the untrimmed
     * prompt and the files go to `onSubmit` and the box is cleared. The files stay attached.
     */
    method HandleOnSubmit()
      requires Valid()
      modifies this
      ensures Valid()
      ensures AllWhitespace(old(prompt)) ==> prompt == old(prompt) && submitted == old(submitted)
      ensures !AllWhitespace(old(prompt)) ==>
        prompt == "" && submitted == old(submitted) + [SubmitCall(old(prompt), old(files))]
      ensures files == old(files)
    {
      if Trim(prompt) == "" {
        return;
      }
      submitted := submitted + [SubmitCall(prompt, files)];
      prompt := "";
    }
  }

  /** The send button is disabled while the prompt is blank or a response is loading. */
  predicate SendDisabled(prompt: string, isLoading: bool) {
    Trim(prompt) == "" || isLoading
  }

  /** The button is enabled exactly when a click would reach `onSubmit`. */
  lemma SendEnabledIffSubmits(prompt: string, isLoading: bool)
    ensures !SendDisabled(prompt, isLoading) <==> !AllWhitespace(prompt) && !isLoading
  {
  }

  /** `availableModel.category || "Other"` */
  function CategoryKey(m: Models.CategorizedModel): (k: string)
    ensures k != ""
    ensures m.category != "" ==> k == m.category
  {
    if Truthy(m.category) then m.category else "Other"
  }

  /**
   * The picker's groups: the `reduce` into a record keyed by category, read back with
   * `Object.entries`, which lists categories that are array indices ("0", "1", ...) first in
   * ascending numeric order and every other category in first-appearance order.
   */
  method GroupByCategory(models: seq<Models.CategorizedModel>) returns (groups: seq<Grouping.Group<Models.CategorizedModel>>)
    ensures groups == PropertyOrder.Entries(Grouping.Grouped(models, CategoryKey))
    ensures multiset(groups) == multiset(Grouping.Grouped(models, CategoryKey))
    ensures forall i, j :: 0 <= i < j < |groups| && PropertyOrder.IsArrayIndex(groups[j].name) ==>
      PropertyOrder.IsArrayIndex(groups[i].name) && PropertyOrder.Rank(groups[i].name) <= PropertyOrder.Rank(groups[j].name)
    ensures PropertyOrder.NamedGroups(groups) == PropertyOrder.NamedGroups(Grouping.Grouped(models, CategoryKey))
    ensures Grouping.TotalSize(groups) == |models|
    ensures forall m :: m in models ==> CategoryKey(m) in Grouping.LabelsOf(groups)
  {
    var record := Grouping.GroupBy(models, CategoryKey);
    groups := PropertyOrder.Entries(record);
    PropertyOrder.EntriesOrder(record);
    Grouping.GroupedSizesSum(models, CategoryKey);
    forall m | m in models
      ensures CategoryKey(m) in Grouping.LabelsOf(groups)
    {
      Grouping.GroupedIsPartition(models, CategoryKey, m);
      var g :| 0 <= g < |record| && record[g].name == CategoryKey(m);
      assert record[g] in multiset(groups);
      var k :| 0 <= k < |groups| && groups[k] == record[g];
      assert Grouping.LabelsOf(groups)[k] == CategoryKey(m);
    }
  }

  /** Three models in the categories "Reasoning", "General", "Reasoning" form two groups. */
  lemma ReasoningGeneralReasoning(ms: seq<Models.CategorizedModel>)
    requires |ms| == 3
    requires CategoryKey(ms[0]) == "Reasoning" && CategoryKey(ms[1]) == "General" && CategoryKey(ms[2]) == "Reasoning"
    ensures Grouping.Grouped(ms, CategoryKey) == [Grouping.Group("Reasoning", [ms[0], ms[2]]), Grouping.Group("General", [ms[1]])]
  {
    var keys := Grouping.KeysOf(ms, CategoryKey);
    assert keys == ["Reasoning", "General", "Reasoning"];
    DistinctReasoningGeneral(keys);
    WithKeyReasoningGeneral(ms);
  }

  lemma DistinctReasoningGeneral(keys: seq<string>)
    requires keys == ["Reasoning", "General", "Reasoning"]
    ensures Grouping.Distinct(keys) == ["Reasoning", "General"]
  {
    assert keys[..2][..1] == ["Reasoning"] && keys[..2] == ["Reasoning", "General"] && keys[..1][..0] == [];
    assert Grouping.Distinct(keys[..1]) == ["Reasoning"];
    assert Grouping.Distinct(keys[..2]) == ["Reasoning", "General"];
  }

  lemma WithKeyReasoningGeneral(ms: seq<Models.CategorizedModel>)
    requires |ms| == 3
    requires CategoryKey(ms[0]) == "Reasoning" && CategoryKey(ms[1]) == "General" && CategoryKey(ms[2]) == "Reasoning"
    ensures Grouping.WithKey(ms, CategoryKey, "Reasoning") == [ms[0], ms[2]]
    ensures Grouping.WithKey(ms, CategoryKey, "General") == [ms[1]]
  {
    assert ms[..2][..1] == [ms[0]] && ms[..1][..0] == [] && ms[..2] == [ms[0], ms[1]];
    assert Grouping.WithKey(ms[..2], CategoryKey, "Reasoning") == [ms[0]];
    assert Grouping.WithKey(ms[..2], CategoryKey, "General") == [ms[1]];
  }

  /** With the shipped models the text picker shows "Reasoning" then "General", in table order within each. */
  lemma ShippedTextPickerGroups()
    ensures var ms := Models.GetAvailableModelsWithCategories(ModelsConfigTable);
      PropertyOrder.Entries(Grouping.Grouped(ms, CategoryKey))
        == [Grouping.Group("Reasoning", [ms[0], ms[2]]), Grouping.Group("General", [ms[1]])]
  {
    var ms := Models.GetAvailableModelsWithCategories(ModelsConfigTable);
    ConfigCapabilities();
    ReasoningGeneralReasoning(ms);
    var gs := Grouping.Grouped(ms, CategoryKey);
    assert !PropertyOrder.IsDigit("Reasoning"[0]) && !PropertyOrder.IsDigit("General"[0]);
    assert forall k :: 0 <= k < |gs| ==> !PropertyOrder.IsArrayIndex(gs[k].name);
    PropertyOrder.NoIndexLabelsKeepOrder(gs);
  }

  /** Models in the categories "Reasoning" then "1": the picker lists the "1" group first. */
  lemma NumericCategoryListedFirst(ms: seq<Models.CategorizedModel>)
    requires |ms| == 2
    requires CategoryKey(ms[0]) == "Reasoning" && CategoryKey(ms[1]) == "1"
    ensures PropertyOrder.Entries(Grouping.Grouped(ms, CategoryKey))
      == [Grouping.Group("1", [ms[1]]), Grouping.Group("Reasoning", [ms[0]])]
  {
    var keys := Grouping.KeysOf(ms, CategoryKey);
    assert keys == ["Reasoning", "1"];
    assert keys[..1] == ["Reasoning"] && keys[..1][..0] == [];
    assert Grouping.Distinct(keys[..1]) == ["Reasoning"];
    assert Grouping.Distinct(keys) == ["Reasoning", "1"];
    assert ms[..1] == [ms[0]] && ms[..1][..0] == [];
    assert Grouping.WithKey(ms[..1], CategoryKey, "Reasoning") == [ms[0]];
    assert Grouping.WithKey(ms[..1], CategoryKey, "1") == [];
    assert Grouping.WithKey(ms, CategoryKey, "Reasoning") == [ms[0]];
    assert Grouping.WithKey(ms, CategoryKey, "1") == [ms[1]];
    var gs := Grouping.Grouped(ms, CategoryKey);
    assert |gs| == 2 && gs[0] == Grouping.Group("Reasoning", [ms[0]]) && gs[1] == Grouping.Group("1", [ms[1]]);
    assert Grouping.Grouped(ms, CategoryKey) == [Grouping.Group("Reasoning", [ms[0]]), Grouping.Group("1", [ms[1]])];
    PropertyOrder.IndexLabelListedFirst([ms[0]], [ms[1]]);
  }

  /** A "byok" model whose provider has no stored key cannot be picked. */
  predicate ItemDisabled(availableWhen: Option<Availability>, provider: Provider, keys: map<Provider, string>) {
    availableWhen == Some(Byok) && !(provider in keys && Truthy(keys[provider]))
  }

  /** None of the shipped text models is marked "byok", so each can be picked whatever keys are stored. */
  lemma ShippedModelsSelectable(keys: map<Provider, string>)
    ensures forall i :: 0 <= i < |ModelsConfigTable| ==>
      !ItemDisabled(ModelsConfigTable[i].1.availableWhen, ModelsConfigTable[i].1.provider, keys)
  {
  }

  /** The "Search the web" checkbox flips `search` and keeps `generateImage`. */
  function ToggleSearch(t: ToolsEnabled): (r: ToolsEnabled)
    ensures r.search != t.search && r.generateImage == t.generateImage
  {
    t.(search := !t.search)
  }

  /** The "Create an image" checkbox flips `generateImage` and keeps `search`. */
  function ToggleGenerateImage(t: ToolsEnabled): (r: ToolsEnabled)
    ensures r.generateImage != t.generateImage && r.search == t.search
  {
    t.(generateImage := !t.generateImage)
  }

  /** Each toggle undoes itself, and the two commute. */
  lemma TogglesInvolutiveAndCommute(t: ToolsEnabled)
    ensures ToggleSearch(ToggleSearch(t)) == t
    ensures ToggleGenerateImage(ToggleGenerateImage(t)) == t
    ensures ToggleSearch(ToggleGenerateImage(t)) == ToggleGenerateImage(ToggleSearch(t))
  {
  }
}
