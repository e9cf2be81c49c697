/**
 * What loading the helicopter does with the list of named sub-models it is
 * given: a count check, then one pass over the list that files every model
 * under the enum slot its name denotes.  Duplicated names are not rejected:
 * a later model overwrites an earlier one, and a slot nobody names keeps
 * the default (empty) model.
 */
module PartTable {
  import opened Wrappers
  import opened HelicopterEnums

  /** A loaded sub-model: its object name and an opaque payload (mesh and materials). */
  datatype Model = Model(name: string, payload: nat)

  /** A default-constructed model. */
  const EmptyModel: Model := Model("", 0)

  datatype LoadError =
    | PartCountMismatch(found: nat)
    | UnknownPartName(name: string)

  /** The object name that identifies each part in the model file. */
  function PartName(p: Part): string
  {
    match p
    case Body => "helicopter_body"
    case Rotor => "main_rotor"
    case Slides => "slides"
    case TailRotor => "tail_rotor_tail"
    case Windows => "windows"
    case Strobe => "strobe"
    case Spotlight => "spotlight"
    case Lights => "lights"
  }

  /** The name tests of the loading loop, in their order. */
  function PartOfName(name: string): (r: Option<Part>)
    ensures forall p :: r == Some(p) <==> PartName(p) == name
  {
    if name == "helicopter_body" then Some(Body)
    else if name == "main_rotor" then Some(Rotor)
    else if name == "tail_rotor_tail" then Some(TailRotor)
    else if name == "slides" then Some(Slides)
    else if name == "windows" then Some(Windows)
    else if name == "strobe" then Some(Strobe)
    else if name == "spotlight" then Some(Spotlight)
    else if name == "lights" then Some(Lights)
    else None
  }

  /** Distinct parts have distinct names. */
  lemma PartNameInjective(p: Part, q: Part)
    requires PartName(p) == PartName(q)
    ensures p == q
  {
    assert PartOfName(PartName(p)) == Some(p);
  }

  predicate Known(m: Model)
  {
    PartOfName(m.name).Some?
  }

  /** The table the loop starts from: one default model per slot. */
  function EmptyTable(): (t: seq<Model>)
    ensures |t| == PART_COUNT
    ensures forall i :: 0 <= i < |t| ==> t[i] == EmptyModel
  {
    seq(PART_COUNT, _ => EmptyModel)
  }

  /** Visiting `models` front to back, store each in its slot; stop at the first unknown name. */
  function FillSlots(table: seq<Model>, models: seq<Model>): (r: Result<seq<Model>, LoadError>)
    requires |table| == PART_COUNT
    ensures r.Success? ==> |r.value| == PART_COUNT
    ensures r.Failure? ==> r.error.UnknownPartName?
    ensures r.Failure? ==> exists i :: 0 <= i < |models| && models[i].name == r.error.name && !Known(models[i])
    decreases |models|
  {
    if models == [] then Success(table)
    else
      match PartOfName(models[0].name)
      case None => Failure(UnknownPartName(models[0].name))
      case Some(p) => FillSlots(table[PartIndex(p) := models[0]], models[1..])
  }

  /** The part table a load produces, or the reason it throws. */
  function LoadTable(models: seq<Model>): (r: Result<seq<Model>, LoadError>)
    ensures r.Success? ==> |models| == PART_COUNT && |r.value| == PART_COUNT
    ensures r.Failure? && r.error.PartCountMismatch? ==> |models| != PART_COUNT && r.error.found == |models|
    ensures |models| == PART_COUNT && r.Failure? ==> r.error.UnknownPartName?
  {
    if |models| != PART_COUNT then Failure(PartCountMismatch(|models|))
    else FillSlots(EmptyTable(), models)
  }

  /** Model `k` is the first whose name is not a part name. */
  predicate FirstUnknown(models: seq<Model>, k: nat)
    requires k < |models|
  {
    !Known(models[k]) && forall j :: 0 <= j < k ==> Known(models[j])
  }

  /** No model after `i` carries the name model `i` carries. */
  predicate LastNamed(models: seq<Model>, i: nat)
    requires i < |models|
  {
    forall j :: i < j < |models| ==> models[j].name != models[i].name
  }

  /** The filling pass succeeds exactly when every name is known, and then keeps the table size. */
  lemma {:induction false} FillSlotsSucceedsIff(table: seq<Model>, models: seq<Model>)
    requires |table| == PART_COUNT
    ensures FillSlots(table, models).Success? <==> forall i :: 0 <= i < |models| ==> Known(models[i])
    ensures FillSlots(table, models).Success? ==> |FillSlots(table, models).value| == PART_COUNT
    decreases |models|
  {
    if models != [] && Known(models[0]) {
      var p := PartOfName(models[0].name).value;
      FillSlotsSucceedsIff(table[PartIndex(p) := models[0]], models[1..]);
      assert forall i :: 1 <= i < |models| ==> models[i] == models[1..][i - 1];
    }
  }

  /** The filling pass fails with the first unknown name. */
  lemma {:induction false} FillSlotsFirstUnknown(table: seq<Model>, models: seq<Model>, k: nat)
    requires |table| == PART_COUNT
    requires k < |models| && !Known(models[k])
    requires forall j :: 0 <= j < k ==> Known(models[j])
    ensures FillSlots(table, models) == Failure(UnknownPartName(models[k].name))
    decreases k
  {
    if k > 0 {
      var p := PartOfName(models[0].name).value;
      assert Known(models[0]);
      assert forall j :: 0 <= j < k - 1 ==> models[1..][j] == models[j + 1];
      FillSlotsFirstUnknown(table[PartIndex(p) := models[0]], models[1..], k - 1);
    }
  }

  /** A slot no model names keeps what the table held. */
  lemma {:induction false} FillSlotsKeepsUnnamed(table: seq<Model>, models: seq<Model>, p: Part)
    requires |table| == PART_COUNT
    requires FillSlots(table, models).Success?
    requires forall i :: 0 <= i < |models| ==> PartOfName(models[i].name) != Some(p)
    ensures |FillSlots(table, models).value| == PART_COUNT
    ensures FillSlots(table, models).value[PartIndex(p)] == table[PartIndex(p)]
    decreases |models|
  {
    if models != [] {
      var q := PartOfName(models[0].name).value;
      var table' := table[PartIndex(q) := models[0]];
      assert p != q;
      assert PartIndex(p) != PartIndex(q) by { PartIndexIsBijective(); }
      assert forall i :: 0 <= i < |models| - 1 ==> models[1..][i] == models[i + 1];
      FillSlotsKeepsUnnamed(table', models[1..], p);
    }
  }

  /** The last model naming a part is the one its slot holds. */
  lemma {:induction false} FillSlotsLastWins(table: seq<Model>, models: seq<Model>, p: Part, i: nat)
    requires |table| == PART_COUNT
    requires FillSlots(table, models).Success?
    requires i < |models| && PartOfName(models[i].name) == Some(p)
    requires forall j :: i < j < |models| ==> PartOfName(models[j].name) != Some(p)
    ensures |FillSlots(table, models).value| == PART_COUNT
    ensures FillSlots(table, models).value[PartIndex(p)] == models[i]
    decreases |models|
  {
    var q := PartOfName(models[0].name).value;
    var table' := table[PartIndex(q) := models[0]];
    if i == 0 {
      assert forall j :: 0 <= j < |models| - 1 ==> models[1..][j] == models[j + 1];
      FillSlotsKeepsUnnamed(table', models[1..], p);
    } else {
      assert forall j :: i - 1 < j < |models| - 1 ==> models[1..][j] == models[j + 1];
      FillSlotsLastWins(table', models[1..], p, i - 1);
    }
  }

  /**
   * Loading succeeds exactly when there are eight models and every name is
   * one of the eight part names; the count is checked first, and otherwise
   * the error names the first unknown model.
   */
  lemma LoadTableOutcome(models: seq<Model>)
    ensures LoadTable(models).Success? <==>
      |models| == PART_COUNT && forall i :: 0 <= i < |models| ==> Known(models[i])
    ensures |models| != PART_COUNT ==> LoadTable(models) == Failure(PartCountMismatch(|models|))
    ensures forall k :: |models| == PART_COUNT && 0 <= k < |models| && FirstUnknown(models, k) ==>
      LoadTable(models) == Failure(UnknownPartName(models[k].name))
  {
    if |models| == PART_COUNT {
      FillSlotsSucceedsIff(EmptyTable(), models);
      forall k | 0 <= k < |models| && FirstUnknown(models, k)
        ensures LoadTable(models) == Failure(UnknownPartName(models[k].name))
      {
        FillSlotsFirstUnknown(EmptyTable(), models, k);
      }
    }
  }

  /**
   * A successful load yields eight slots; each part's slot holds the last
   * model carrying that part's name, or the default model if none does.
   */
  lemma LoadTableSlots(models: seq<Model>, p: Part)
    requires LoadTable(models).Success?
    ensures |LoadTable(models).value| == PART_COUNT
    ensures forall i :: 0 <= i < |models| && models[i].name == PartName(p) && LastNamed(models, i) ==>
      LoadTable(models).value[PartIndex(p)] == models[i]
    ensures (forall i :: 0 <= i < |models| ==> models[i].name != PartName(p)) ==>
      LoadTable(models).value[PartIndex(p)] == EmptyModel
  {
    FillSlotsSucceedsIff(EmptyTable(), models);
    forall i | 0 <= i < |models| && models[i].name == PartName(p) && LastNamed(models, i)
      ensures LoadTable(models).value[PartIndex(p)] == models[i]
    {
      FillSlotsLastWins(EmptyTable(), models, p, i);
    }
    if forall i :: 0 <= i < |models| ==> models[i].name != PartName(p) {
      FillSlotsKeepsUnnamed(EmptyTable(), models, p);
    }
  }

  /** The object names of `models`, in order. */
  function Names(models: seq<Model>): (names: seq<string>)
    ensures |names| == |models|
    ensures forall i :: 0 <= i < |models| ==> names[i] == models[i].name
  {
    seq(|models|, i requires 0 <= i < |models| => models[i].name)
  }

  /** A value at two positions of a sequence occurs in it at least twice. */
  lemma TwoEntriesCount(s: seq<string>, i: nat, j: nat)
    requires i < j < |s| && s[i] == s[j]
    ensures multiset(s)[s[i]] >= 2
  {
    assert s == s[..j] + s[j..];
    assert s[..j][i] == s[i] && s[j..][0] == s[j];
  }

  /** A sequence without repeated entries holds each value at most once. */
  lemma {:induction false} DistinctCountAtMostOne(s: seq<string>, x: string)
    requires Distinct(s)
    ensures multiset(s)[x] <= 1
    decreases |s|
  {
    if s != [] {
      assert s == [s[0]] + s[1..];
      assert forall i, j :: 0 <= i < j < |s| - 1 ==> s[1..][i] == s[i + 1] && s[1..][j] == s[j + 1];
      DistinctCountAtMostOne(s[1..], x);
      if x == s[0] {
        assert x !in s[1..];
      }
    }
  }

  /** The eight part names in ePart order. */
  const Vocabulary: seq<string> :=
    ["helicopter_body", "main_rotor", "slides", "tail_rotor_tail", "windows", "strobe", "spotlight", "lights"]

  /** The vocabulary lists exactly the eight part names. */
  lemma VocabularyIsPartNames(name: string)
    ensures name in Vocabulary <==> PartOfName(name).Some?
  {
    if name in Vocabulary {
      var k :| 0 <= k < |Vocabulary| && Vocabulary[k] == name;
      assert Vocabulary[k] == PartName(PartAt(k));
    }
    if PartOfName(name).Some? {
      var p := PartOfName(name).value;
      assert Vocabulary[PartIndex(p)] == name;
    }
  }

  predicate Distinct(s: seq<string>)
  {
    forall i, j :: 0 <= i < j < |s| ==> s[i] != s[j]
  }

  /** A reordering of a sequence without repeats has no repeats either. */
  lemma ReorderingKeepsDistinct(s: seq<string>, t: seq<string>)
    requires multiset(s) == multiset(t) && Distinct(t)
    ensures Distinct(s)
  {
    forall i, j | 0 <= i < j < |s| ensures s[i] != s[j] {
      if s[i] == s[j] {
        TwoEntriesCount(s, i, j);
        DistinctCountAtMostOne(t, s[i]);
      }
    }
  }

  lemma VocabularyIsDistinct()
    ensures Distinct(Vocabulary)
  {
    forall i, j | 0 <= i < j < |Vocabulary| ensures Vocabulary[i] != Vocabulary[j] {
      var p, q := PartAt(i), PartAt(j);
      assert Vocabulary[i] == PartName(p) && Vocabulary[j] == PartName(q);
      if PartName(p) == PartName(q) {
        PartNameInjective(p, q);
      }
    }
  }

  /** In a list that is a reordering of the vocabulary, every model is the last carrying its name. */
  lemma ReorderingHasNoRepeats(models: seq<Model>)
    requires multiset(Names(models)) == multiset(Vocabulary)
    ensures forall i :: 0 <= i < |models| ==> LastNamed(models, i)
  {
    VocabularyIsDistinct();
    ReorderingKeepsDistinct(Names(models), Vocabulary);
    forall i | 0 <= i < |models| ensures LastNamed(models, i) {
      forall j | i < j < |models| ensures models[j].name != models[i].name {
        assert Names(models)[i] != Names(models)[j];
      }
    }
  }

  /** A reordering of the vocabulary has eight entries, all of them part names. */
  lemma AnyOrderAllKnown(models: seq<Model>)
    requires multiset(Names(models)) == multiset(Vocabulary)
    ensures |models| == PART_COUNT
    ensures forall i :: 0 <= i < |models| ==> Known(models[i])
  {
    assert |models| == |Names(models)| == |multiset(Vocabulary)| == PART_COUNT;
    forall i | 0 <= i < |models| ensures Known(models[i]) {
      assert Names(models)[i] in multiset(Names(models));
      VocabularyIsPartNames(models[i].name);
    }
  }

  /** A reordering of the vocabulary names every part. */
  lemma AnyOrderNamesPart(models: seq<Model>, p: Part) returns (i: nat)
    requires multiset(Names(models)) == multiset(Vocabulary)
    ensures i < |models| && models[i].name == PartName(p)
  {
    VocabularyIsPartNames(PartName(p));
    assert PartName(p) in multiset(Names(models));
    var k :| 0 <= k < |models| && Names(models)[k] == PartName(p);
    i := k;
  }

  /**
   * Eight models carrying the eight part names, in any order, load
   * successfully and land each in the slot of its own name.
   */
  lemma AnyOrderLoads(models: seq<Model>)
    requires multiset(Names(models)) == multiset(Vocabulary)
    ensures LoadTable(models).Success? && |LoadTable(models).value| == PART_COUNT
    ensures forall p :: LoadTable(models).value[PartIndex(p)].name == PartName(p)
    ensures forall p, i :: 0 <= i < |models| && models[i].name == PartName(p) ==>
      LoadTable(models).value[PartIndex(p)] == models[i]
  {
    AnyOrderAllKnown(models);
    LoadTableOutcome(models);
    ReorderingHasNoRepeats(models);
    forall p, i | 0 <= i < |models| && models[i].name == PartName(p)
      ensures LoadTable(models).value[PartIndex(p)] == models[i]
    {
      LoadTableSlots(models, p);
    }
    forall p ensures LoadTable(models).value[PartIndex(p)].name == PartName(p) {
      var i := AnyOrderNamesPart(models, p);
      LoadTableSlots(models, p);
    }
  }

  /** Some model carrying `name` is the last one to carry it, and its slot holds it. */
  lemma {:induction false} LastNaming(models: seq<Model>, name: string, i: nat, p: Part)
    requires LoadTable(models).Success?
    requires name == PartName(p)
    requires i < |models| && models[i].name == name
    ensures |LoadTable(models).value| == PART_COUNT
    ensures LoadTable(models).value[PartIndex(p)].name == name
    decreases |models| - i
  {
    LoadTableSlots(models, p);
    if exists j :: i < j < |models| && models[j].name == name {
      var j :| i < j < |models| && models[j].name == name;
      LastNaming(models, name, j, p);
    }
  }

  /** Models whose names are those of `parts` are all known, and differ in name where the parts differ. */
  lemma NamedAfterParts(models: seq<Model>, parts: seq<Part>)
    requires |models| == |parts|
    requires forall k :: 0 <= k < |models| ==> models[k].name == PartName(parts[k])
    ensures forall k :: 0 <= k < |models| ==> Known(models[k])
    ensures forall i, j :: 0 <= i < |models| && 0 <= j < |models| && parts[i] != parts[j] ==>
      models[i].name != models[j].name
  {
    forall k | 0 <= k < |models| ensures Known(models[k]) {
      assert PartOfName(PartName(parts[k])) == Some(parts[k]);
    }
    forall i, j | 0 <= i < |models| && 0 <= j < |models| && parts[i] != parts[j]
      ensures models[i].name != models[j].name
    {
      if models[i].name == models[j].name { PartNameInjective(parts[i], parts[j]); }
    }
  }

  /** No entry after `i` repeats part `parts[i]`. */
  predicate LastOfPart(parts: seq<Part>, i: nat)
    requires i < |parts|
  {
    forall j :: i < j < |parts| ==> parts[j] != parts[i]
  }

  /**
   * Loading eight models named after the parts `parts` (in that order)
   * succeeds; slot `parts[i]` holds model `i` unless a later model names
   * the same part, and a part missing from `parts` keeps the default model.
   */
  lemma LoadByParts(models: seq<Model>, parts: seq<Part>)
    requires |models| == PART_COUNT && |parts| == |models|
    requires forall k :: 0 <= k < |models| ==> models[k].name == PartName(parts[k])
    ensures LoadTable(models).Success? && |LoadTable(models).value| == PART_COUNT
    ensures forall i :: 0 <= i < |parts| && LastOfPart(parts, i) ==>
      LoadTable(models).value[PartIndex(parts[i])] == models[i]
    ensures forall p :: (forall k :: 0 <= k < |parts| ==> parts[k] != p) ==>
      LoadTable(models).value[PartIndex(p)] == EmptyModel
  {
    NamedAfterParts(models, parts);
    LoadTableOutcome(models);
    LoadTableSlots(models, Body);
    forall i | 0 <= i < |parts| && LastOfPart(parts, i)
      ensures LoadTable(models).value[PartIndex(parts[i])] == models[i]
    {
      LoadTableSlots(models, parts[i]);
      assert LastNamed(models, i);
    }
    forall p | forall k :: 0 <= k < |parts| ==> parts[k] != p
      ensures LoadTable(models).value[PartIndex(p)] == EmptyModel
    {
      LoadTableSlots(models, p);
      forall k | 0 <= k < |models| ensures models[k].name != PartName(p) {
        if models[k].name == PartName(p) { PartNameInjective(parts[k], p); }
      }
    }
  }

  lemma NamesOfReorderedFile(models: seq<Model>, parts: seq<Part>)
    requires models == [Model("tail_rotor_tail", 3), Model("slides", 2), Model("lights", 7),
      Model("main_rotor", 1), Model("helicopter_body", 0), Model("windows", 4),
      Model("strobe", 5), Model("spotlight", 6)]
    requires parts == [TailRotor, Slides, Lights, Rotor, Body, Windows, Strobe, Spotlight]
    ensures forall k :: 0 <= k < |models| ==> models[k].name == PartName(parts[k])
  {
    forall k | 0 <= k < |models| ensures models[k].name == PartName(parts[k]) {
      if k < 4 {
        assert k == 0 || k == 1 || k == 2 || k == 3;
      } else {
        assert k == 4 || k == 5 || k == 6 || k == 7;
      }
    }
  }

  /** A model naming a part that no later model names is what that part's slot holds. */
  lemma SlotOfLast(models: seq<Model>, parts: seq<Part>, i: nat, p: Part)
    requires |models| == PART_COUNT && |parts| == |models|
    requires forall k :: 0 <= k < |models| ==> models[k].name == PartName(parts[k])
    requires i < |parts| && parts[i] == p && LastOfPart(parts, i)
    ensures LoadTable(models).Success? && |LoadTable(models).value| == PART_COUNT
    ensures LoadTable(models).value[PartIndex(p)] == models[i]
  {
    LoadByParts(models, parts);
  }

  /** The file order need not match the enum: TAIL_ROTOR and SLIDES are filed by name. */
  lemma ReorderedFileExample(models: seq<Model>)
    requires models == [Model("tail_rotor_tail", 3), Model("slides", 2), Model("lights", 7),
      Model("main_rotor", 1), Model("helicopter_body", 0), Model("windows", 4),
      Model("strobe", 5), Model("spotlight", 6)]
    ensures LoadTable(models).Success? && |LoadTable(models).value| == PART_COUNT
    ensures LoadTable(models).value[PartIndex(TailRotor)] == Model("tail_rotor_tail", 3)
    ensures LoadTable(models).value[PartIndex(Slides)] == Model("slides", 2)
  {
    var parts := [TailRotor, Slides, Lights, Rotor, Body, Windows, Strobe, Spotlight];
    NamesOfReorderedFile(models, parts);
    SlotOfLast(models, parts, 0, TailRotor);
    SlotOfLast(models, parts, 1, Slides);
  }

  /** A repeated name is accepted: its last model wins, and the slot nobody names stays empty. */
  lemma DuplicateNameExample(models: seq<Model>)
    requires models == [Model("main_rotor", 10), Model("helicopter_body", 0), Model("slides", 2),
      Model("tail_rotor_tail", 3), Model("windows", 4), Model("strobe", 5),
      Model("spotlight", 6), Model("main_rotor", 11)]
    ensures LoadTable(models).Success? && |LoadTable(models).value| == PART_COUNT
    ensures LoadTable(models).value[PartIndex(Rotor)] == Model("main_rotor", 11)
    ensures LoadTable(models).value[PartIndex(Lights)] == EmptyModel
  {
    var parts := [Rotor, Body, Slides, TailRotor, Windows, Strobe, Spotlight, Rotor];
    forall k | 0 <= k < |models| ensures models[k].name == PartName(parts[k]) {
      if k < 4 {
        assert k == 0 || k == 1 || k == 2 || k == 3;
      } else {
        assert k == 4 || k == 5 || k == 6 || k == 7;
      }
    }
    SlotOfLast(models, parts, 7, Rotor);
    assert forall k :: 0 <= k < |parts| ==> parts[k] != Lights;
    LoadByParts(models, parts);
  }
}
