// The Prototype pattern: documents and game characters are created by deep
// copying a prototype, and a registry hands out copies of named templates.
// Lists and dictionaries inside an object are values here, so a deep copy is
// a fresh object holding the same field values.
module Prototype {
  import opened Wrappers

  // ---------------------------------------------------------------------
  // Document templates
  // ---------------------------------------------------------------------

  /** A formatting value: the templates use strings and integers. */
  datatype FormatValue = Str(s: string) | Num(n: int)

  /** The fields of a `Document`, as a value; dataclass equality compares these. */
  datatype DocumentValue = DocumentValue(
    title: string, content: string, author: string, formatting: map<string, FormatValue>,
    tags: seq<string>, metadata: map<string, string>)

  class Document {
    var title: string
    var content: string
    var author: string
    var formatting: map<string, FormatValue>
    var tags: seq<string>
    var metadata: map<string, string>

    constructor (v: DocumentValue)
      ensures Value() == v
    {
      title := v.title;
      content := v.content;
      author := v.author;
      formatting := v.formatting;
      tags := v.tags;
      metadata := v.metadata;
    }

    function Value(): DocumentValue
      reads this
    {
      DocumentValue(title, content, author, formatting, tags, metadata)
    }

    /** A deep copy: equal to this document, yet a separate object. */
    method Clone() returns (c: Document)
      ensures fresh(c) && c.Value() == Value()
    {
      c := new Document(Value());
    }
  }

  /** The error `create_from_template` raises for an unknown name. */
  function NotFound(name: string): string
  {
    "Template '" + name + "' not found"
  }

  /** No name appears twice. */
  predicate Distinct(names: seq<string>)
  {
    forall i, j :: 0 <= i < j < |names| ==> names[i] != names[j]
  }

  /** A dictionary's key order after assigning `name`: a new key goes last, an old one stays put. */
  function WithKey(names: seq<string>, name: string): (r: seq<string>)
    ensures Distinct(names) ==> Distinct(r)
    ensures forall n :: n in r <==> n in names || n == name
    ensures name in names ==> r == names
  {
    if name in names then names else names + [name]
  }

  class DocumentTemplateRegistry {
    var templates: map<string, Document>
    /** The keys of `templates` in first-registration order. */
    var names: seq<string>

    ghost predicate Valid()
      reads this
    {
      Distinct(names) && forall n :: n in names <==> n in templates
    }

    constructor ()
      ensures Valid() && templates == map[] && names == []
    {
      templates := map[];
      names := [];
    }

    /** Registering an existing name replaces its template and keeps its place. */
    method Register(name: string, template: Document)
      requires Valid()
      modifies this
      ensures Valid()
      ensures templates == old(templates)[name := template]
      ensures names == WithKey(old(names), name)
    {
      templates := templates[name := template];
      names := WithKey(names, name);
    }

    /** A fresh copy of the named template, or the not-found error. */
    method CreateFromTemplate(name: string) returns (r: Result<Document>)
      ensures r.Err? <==> name !in templates
      ensures r.Err? ==> r.error == NotFound(name)
      ensures r.Ok? ==> fresh(r.value) && r.value.Value() == templates[name].Value()
    {
      if name !in templates {
        r := Err(NotFound(name));
      } else {
        var d := templates[name].Clone();
        r := Ok(d);
      }
    }

    /** Every registered name, once each, in first-registration order. */
    method ListTemplates() returns (ns: seq<string>)
      requires Valid()
      ensures ns == names
      ensures Distinct(ns)
      ensures forall n :: n in ns <==> n in templates
    {
      ns := names;
    }
  }

  /** Registering a name twice lists it once, at its first position. */
  lemma ReRegisterKeepsOrder(names: seq<string>, name: string)
    requires Distinct(names)
    ensures WithKey(WithKey(names, name), name) == WithKey(names, name)
    ensures name !in names ==> WithKey(names, name)[|names|] == name
  {
  }

  const InvoiceTemplate := DocumentValue(
    "Invoice", "Invoice for services rendered...", "Company XYZ",
    map["font" := Str("Arial"), "size" := Num(12), "margin" := Str("1in")],
    ["finance", "invoice"], map["version" := "1.0"])

  /**
   * The demonstration's invoice: a customised copy of the registered
   * template, while the template itself keeps its original fields.
   */
  method DemoInvoice() returns (template: Document, invoice: Document)
    ensures template != invoice
    ensures template.Value() == InvoiceTemplate
    ensures invoice.Value() == InvoiceTemplate.(
      title := "Invoice #1042 — Web Development",
      content := "Payment for building the company website...",
      metadata := map["version" := "1.0", "invoice_number" := "1042"])
  {
    var registry := new DocumentTemplateRegistry();
    template := new Document(InvoiceTemplate);
    registry.Register("invoice", template);
    var r := registry.CreateFromTemplate("invoice");
    invoice := r.value;
    invoice.title := "Invoice #1042 — Web Development";
    invoice.content := "Payment for building the company website...";
    invoice.metadata := invoice.metadata["invoice_number" := "1042"];
  }

  // ---------------------------------------------------------------------
  // Game characters
  // ---------------------------------------------------------------------

  /** The fields of a `GameCharacter`, as a value. */
  datatype CharacterValue = CharacterValue(
    name: string, health: int, attack: int, defense: int, abilities: seq<string>,
    equipment: map<string, string>, position: (int, int))

  const DefaultCharacter := CharacterValue("Unknown", 100, 10, 5, [], map[], (0, 0))

  class GameCharacter {
    var name: string
    var health: int
    var attack: int
    var defense: int
    var abilities: seq<string>
    var equipment: map<string, string>
    var position: (int, int)

    constructor (v: CharacterValue)
      ensures Value() == v
    {
      name := v.name;
      health := v.health;
      attack := v.attack;
      defense := v.defense;
      abilities := v.abilities;
      equipment := v.equipment;
      position := v.position;
    }

    function Value(): CharacterValue
      reads this
    {
      CharacterValue(name, health, attack, defense, abilities, equipment, position)
    }

    /** A deep copy: equal to this character, yet a separate object. */
    method Clone() returns (c: GameCharacter)
      ensures fresh(c) && c.Value() == Value()
    {
      c := new GameCharacter(Value());
    }
  }

  const GoblinTemplate := DefaultCharacter.(
    name := "Goblin", health := 50, attack := 8, defense := 3, abilities := ["slash", "dodge"],
    equipment := map["weapon" := "rusty sword", "armor" := "leather"])

  const GoblinWarrior := GoblinTemplate.(
    name := "Goblin Warrior", health := 80, attack := 15,
    equipment := map["weapon" := "iron sword", "armor" := "leather"], position := (10, 20))

  const GoblinArcher := GoblinTemplate.(
    name := "Goblin Archer", attack := 12, abilities := ["slash", "dodge", "arrow_shot"],
    equipment := map["weapon" := "short bow", "armor" := "leather"], position := (30, 15))

  /** The demonstration's warrior, customised from a clone; the template is not touched. */
  method CloneWarrior(template: GameCharacter) returns (warrior: GameCharacter)
    requires template.Value() == GoblinTemplate
    ensures warrior.Value() == GoblinWarrior
  {
    warrior := template.Clone();
    warrior.name := "Goblin Warrior";
    warrior.health := 80;
    warrior.attack := 15;
    warrior.equipment := warrior.equipment["weapon" := "iron sword"];
    warrior.position := (10, 20);
  }

  /** The demonstration's archer: its appended ability reaches neither the template nor the warrior. */
  method CloneArcher(template: GameCharacter) returns (archer: GameCharacter)
    requires template.Value() == GoblinTemplate
    ensures archer.Value() == GoblinArcher
  {
    archer := template.Clone();
    archer.name := "Goblin Archer";
    archer.attack := 12;
    archer.abilities := archer.abilities + ["arrow_shot"];
    archer.equipment := archer.equipment["weapon" := "short bow"];
    archer.position := (30, 15);
  }

  /** Two customised clones of one template leave the template untouched. */
  method DemoGoblins() returns (template: GameCharacter, warrior: GameCharacter, archer: GameCharacter)
    ensures template.Value() == GoblinTemplate
    ensures warrior.Value() == GoblinWarrior && archer.Value() == GoblinArcher
  {
    template := new GameCharacter(GoblinTemplate);
    warrior := CloneWarrior(template);
    archer := CloneArcher(template);
  }
}
