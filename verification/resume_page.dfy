/** The resume builder page: sections that expand and collapse, a shallow merge
    of edited fields into a section's data, and the miniature preview built from
    the first section of each kind. */
module ResumePage {
  import opened Common

  datatype SectionType = Personal | Experience | Education | Skills | Projects | Certifications

  /** The untyped values a section's `data` record holds. */
  datatype Value =
    | Text(text: string)
    | Flag(flag: bool)
    | List(items: seq<Value>)
    | Record(fields: map<string, Value>)

  datatype Section = Section(id: string, sectionType: SectionType, title: string, isExpanded: bool, data: map<string, Value>)

  // ---------------------------------------------------------------------------
  // Section updates

  function IdIs(id: string): Section -> bool
  {
    (s: Section) => s.id == id
  }

  function Flip(s: Section): Section
  {
    s.(isExpanded := !s.isExpanded)
  }

  /** `toggleSection`: the sections with the id flip `isExpanded`; nothing else
      changes and the order is kept. */
  function ToggledSections(sections: seq<Section>, id: string): (r: seq<Section>)
    ensures |r| == |sections|
    ensures forall k :: 0 <= k < |sections| && sections[k].id == id ==>
      r[k].isExpanded == !sections[k].isExpanded && r[k].(isExpanded := sections[k].isExpanded) == sections[k]
    ensures forall k :: 0 <= k < |sections| && sections[k].id != id ==> r[k] == sections[k]
  {
    MapWhere(sections, IdIs(id), Flip)
  }

  /** Toggling the same section twice changes nothing. */
  lemma ToggleTwice(sections: seq<Section>, id: string)
    ensures ToggledSections(ToggledSections(sections, id), id) == sections
  {
    var once := ToggledSections(sections, id);
    var twice := ToggledSections(once, id);
    assert forall k :: 0 <= k < |sections| ==> twice[k] == sections[k] by {
      forall k | 0 <= k < |sections| ensures twice[k] == sections[k] {
        assert once[k].id == sections[k].id;
      }
    }
  }

  /** `{ ...old, ...patch }`: the patch's keys overwrite, the other keys stay. */
  function Spread(data: map<string, Value>, patch: map<string, Value>): (r: map<string, Value>)
    ensures r.Keys == data.Keys + patch.Keys
    ensures forall key :: key in patch ==> r[key] == patch[key]
    ensures forall key :: key in data && key !in patch ==> r[key] == data[key]
  {
    data + patch
  }

  /** Merging a patch that is already merged in changes nothing more. */
  lemma SpreadIdempotent(data: map<string, Value>, patch: map<string, Value>)
    ensures Spread(Spread(data, patch), patch) == Spread(data, patch)
  {
  }

  /** `updateSectionData`: the sections with the id get the patch merged into
      their data; the others and the order are unchanged. */
  function UpdatedSections(sections: seq<Section>, id: string, patch: map<string, Value>): (r: seq<Section>)
    ensures |r| == |sections|
    ensures forall k :: 0 <= k < |sections| && sections[k].id == id ==>
      r[k] == sections[k].(data := Spread(sections[k].data, patch))
    ensures forall k :: 0 <= k < |sections| && sections[k].id != id ==> r[k] == sections[k]
  {
    MapWhere(sections, IdIs(id), (s: Section) => s.(data := Spread(s.data, patch)))
  }

  /** The page's section list. */
  class ResumePageState {
    var sections: seq<Section>

    method ToggleSection(id: string)
      modifies this
      ensures sections == ToggledSections(old(sections), id)
    {
      sections := ToggledSections(sections, id);
    }

    method UpdateSectionData(id: string, patch: map<string, Value>)
      modifies this
      ensures sections == UpdatedSections(old(sections), id, patch)
    {
      sections := UpdatedSections(sections, id, patch);
    }
  }

  // ---------------------------------------------------------------------------
  // Preview

  function TypeIs(t: SectionType): Section -> bool
  {
    (s: Section) => s.sectionType == t
  }

  /** `sections.find(s => s.type === t)`: the first section of that kind. */
  function FindSection(sections: seq<Section>, t: SectionType): (r: Option<Section>)
    ensures r.None? <==> forall k :: 0 <= k < |sections| ==> sections[k].sectionType != t
    ensures r.Some? ==> exists i :: 0 <= i < |sections| && sections[i] == r.value && r.value.sectionType == t &&
                         forall k :: 0 <= k < i ==> sections[k].sectionType != t
  {
    var i := FirstIndex(sections, TypeIs(t));
    if i == -1 then None else Some(sections[i])
  }

  /** The found section has a non-empty string under `key`. */
  predicate HasText(section: Option<Section>, key: string)
  {
    section.Some? && key in section.value.data && section.value.data[key].Text? && section.value.data[key].text != ""
  }

  /** A field of the found section read as a string, or `fallback` when there is
      no such section, no such field, a value that is not a string, or an empty
      string (`(x as string) || fallback`). */
  function TextField(section: Option<Section>, key: string, fallback: string): (r: string)
    ensures HasText(section, key) ==> r == section.value.data[key].text
    ensures !HasText(section, key) ==> r == fallback
  {
    if HasText(section, key) then section.value.data[key].text else fallback
  }

  /** The preview's name line: the personal section's `fullName`, or 'Your Name'. */
  function PreviewName(sections: seq<Section>): (r: string)
    ensures r != ""
    ensures FindSection(sections, Personal).None? ==> r == "Your Name"
    ensures HasText(FindSection(sections, Personal), "fullName") ==>
      r == FindSection(sections, Personal).value.data["fullName"].text
    ensures !HasText(FindSection(sections, Personal), "fullName") ==> r == "Your Name"
  {
    TextField(FindSection(sections, Personal), "fullName", "Your Name")
  }

  /** A field of the found section read as a list, or the empty list
      (`(x as T[]) || []`). */
  function ListField(section: Option<Section>, key: string): (r: seq<Value>)
    ensures section.Some? && key in section.value.data && section.value.data[key].List? ==>
      r == section.value.data[key].items
    ensures !(section.Some? && key in section.value.data && section.value.data[key].List?) ==> r == []
  {
    if section.Some? && key in section.value.data && section.value.data[key].List?
    then section.value.data[key].items
    else []
  }

  /** The experience entries of the preview: the first two items of the first
      experience section. */
  function PreviewExperience(sections: seq<Section>): (r: seq<Value>)
    ensures |r| <= 2
    ensures r <= ListField(FindSection(sections, Experience), "items")
    ensures |ListField(FindSection(sections, Experience), "items")| >= 2 ==> |r| == 2
    ensures |ListField(FindSection(sections, Experience), "items")| <= 2 ==>
      r == ListField(FindSection(sections, Experience), "items")
  {
    Take(ListField(FindSection(sections, Experience), "items"), 2)
  }

  /** The education entry of the preview: the first item of the first education
      section. */
  function PreviewEducation(sections: seq<Section>): (r: seq<Value>)
    ensures |r| <= 1
    ensures r <= ListField(FindSection(sections, Education), "items")
    ensures ListField(FindSection(sections, Education), "items") != [] ==> |r| == 1
    ensures |ListField(FindSection(sections, Education), "items")| <= 1 ==>
      r == ListField(FindSection(sections, Education), "items")
  {
    Take(ListField(FindSection(sections, Education), "items"), 1)
  }

  /** What one skill category contributes to `flatMap`: its `skills` array
      element by element; any other truthy `skills` value as one element; a
      missing or falsy one (or a category that is not an object) nothing. */
  function SkillsOf(category: Value): seq<Value>
  {
    if category.Record? && "skills" in category.fields then
      var v := category.fields["skills"];
      if v.List? then v.items
      else if IsTruthy(v) then [v]
      else []
    else []
  }

  /** JavaScript truthiness of a value: the empty string and `false` are falsy,
      every array and object is truthy. */
  predicate IsTruthy(v: Value)
  {
    match v
    case Text(t) => t != ""
    case Flag(b) => b
    case List(_) => true
    case Record(_) => true
  }

  /** `categories.flatMap(cat => cat.skills || [])`. */
  function FlatSkills(categories: seq<Value>): (r: seq<Value>)
    ensures categories != [] ==> SkillsOf(categories[0]) <= r
    decreases |categories|
  {
    if categories == [] then [] else SkillsOf(categories[0]) + FlatSkills(categories[1..])
  }

  /** Flattening two lists of categories flattens each in turn, so every
      category's skills come whole and in category order. */
  lemma {:induction false} FlatSkillsAppend(a: seq<Value>, b: seq<Value>)
    ensures FlatSkills(a + b) == FlatSkills(a) + FlatSkills(b)
    decreases |a|
  {
    if a == [] {
      assert a + b == b;
    } else {
      var ab := a + b;
      assert ab[0] == a[0] && ab[1..] == a[1..] + b;
      FlatSkillsAppend(a[1..], b);
      assert FlatSkills(ab) == SkillsOf(a[0]) + FlatSkills(a[1..] + b);
      assert FlatSkills(a) == SkillsOf(a[0]) + FlatSkills(a[1..]);
    }
  }

  /** Each category's skills sit in the flattened list right after those of the
      categories before it. */
  lemma {:induction false} FlatSkillsPlacesEach(categories: seq<Value>, i: nat)
    requires i < |categories|
    ensures FlatSkills(categories[..i]) + SkillsOf(categories[i]) <= FlatSkills(categories)
    decreases |categories|
  {
    assert categories == categories[..i] + categories[i..];
    FlatSkillsAppend(categories[..i], categories[i..]);
  }

  /** The skill chips of the preview: the first ten of all skill categories'
      skills taken in order. */
  function PreviewSkills(sections: seq<Section>): (r: seq<Value>)
    ensures |r| <= 10
    ensures r <= FlatSkills(ListField(FindSection(sections, Skills), "categories"))
    ensures |FlatSkills(ListField(FindSection(sections, Skills), "categories"))| >= 10 ==> |r| == 10
    ensures |FlatSkills(ListField(FindSection(sections, Skills), "categories"))| <= 10 ==>
      r == FlatSkills(ListField(FindSection(sections, Skills), "categories"))
  {
    Take(FlatSkills(ListField(FindSection(sections, Skills), "categories")), 10)
  }
}
