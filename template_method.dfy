// The Template Method pattern: a data pipeline whose four steps (read,
// validate, transform, save) are fixed while each format supplies its own
// steps, and a beverage recipe whose brewing and condiment steps vary by drink.
module TemplateMethod {
  import opened Wrappers
  import Text
  import Seqs

  /** What `save_data` returns: the format, the number of records saved and the records. */
  datatype Saved<T> = Saved(format: string, recordsSaved: nat, data: seq<T>)

  // ---------------------------------------------------------------------
  // CSV processor
  // ---------------------------------------------------------------------

  /** A raw CSV record is a dictionary of text fields. */
  type CsvRecord = map<string, string>

  datatype CsvOut = CsvOut(fullName: string, age: nat, location: string)

  /** `CSVDataProcessor.read_data`: the source name is not read. */
  function ReadCsv(source: string): seq<CsvRecord>
  {
    [map["name" := "Alice", "age" := "30", "city" := "New York"],
     map["name" := "", "age" := "25", "city" := "LA"],
     map["name" := "Charlie", "age" := "abc", "city" := "Chicago"],
     map["name" := "Diana", "age" := "28", "city" := "Houston"]]
  }

  /** `record.get("name")` is truthy and `record.get("age", "").isdigit()` holds. */
  predicate ValidCsv(r: CsvRecord)
  {
    "name" in r && r["name"] != "" && "age" in r && Text.IsDigits(r["age"])
  }

  /** `CSVDataProcessor.validate_data`: the loop that keeps the valid records. */
  method ValidateCsv(data: seq<CsvRecord>) returns (valid: seq<CsvRecord>)
    ensures valid == Seqs.Filter(data, ValidCsv)
    ensures forall r :: r in valid <==> r in data && ValidCsv(r)
    ensures Seqs.IsSubsequence(valid, data)
  {
    valid := [];
    var i := 0;
    while i < |data|
      invariant 0 <= i <= |data|
      invariant valid == Seqs.Filter(data[..i], ValidCsv)
    {
      Seqs.FilterAppend(data[..i], [data[i]], ValidCsv);
      assert data[..i + 1] == data[..i] + [data[i]];
      if ValidCsv(data[i]) {
        valid := valid + [data[i]];
      }
      i := i + 1;
    }
    assert data[..i] == data;
    Seqs.FilterMembers(data, ValidCsv);
    Seqs.FilterIsSubsequence(data, ValidCsv);
  }

  /** What `transform_data` needs of a record before it looks up the city: a name and a whole-number age. */
  predicate Transformable(r: CsvRecord)
  {
    "name" in r && "age" in r && Text.IsDigits(r["age"])
  }

  /** `int(record["age"])`. */
  function Age(r: CsvRecord): nat
    requires Transformable(r)
  {
    Text.DigitsValue(r["age"])
  }

  function TransformCsvRecord(r: CsvRecord): CsvOut
    requires Transformable(r) && "city" in r
  {
    CsvOut(Text.Upper(r["name"]), Age(r), r["city"])
  }

  /**
   * `CSVDataProcessor.transform_data`: each record becomes its upper-cased name,
   * its age as a number and its city; a record without a city raises KeyError.
   */
  function TransformCsv(data: seq<CsvRecord>): (r: Result<seq<CsvOut>>)
    requires forall i :: 0 <= i < |data| ==> Transformable(data[i])
    ensures r.Ok? <==> forall i :: 0 <= i < |data| ==> "city" in data[i]
    ensures r.Err? ==> r.error == "city"
    ensures r.Ok? ==> |r.value| == |data| && forall i :: 0 <= i < |data| ==>
      r.value[i].age == Age(data[i]) &&
      r.value[i].fullName == Text.Upper(data[i]["name"]) &&
      r.value[i].location == data[i]["city"]
    decreases |data|
  {
    if data == [] then Ok([])
    else if "city" !in data[0] then Err("city")
    else
      match TransformCsv(data[1..])
      case Err(e) => Err(e)
      case Ok(rest) => Ok([TransformCsvRecord(data[0])] + rest)
  }

  /** `CSVDataProcessor.save_data`. */
  function SaveCsv(data: seq<CsvOut>): Saved<CsvOut>
  {
    Saved("CSV", |data|, data)
  }

  /**
   * `DataProcessor.process` for CSV: read, validate, transform and save, in that
   * order. The KeyError of a valid record without a city is the error result.
   */
  method ProcessCsv(source: string) returns (result: Result<Saved<CsvOut>>)
    ensures var valid := Seqs.Filter(ReadCsv(source), ValidCsv);
      match TransformCsv(valid)
      case Ok(out) => result == Ok(SaveCsv(out)) && result.value.recordsSaved == |valid|
      case Err(e) => result == Err(e)
  {
    var raw := ReadCsv(source);
    var valid := ValidateCsv(raw);
    Seqs.FilterMembers(raw, ValidCsv);
    assert forall i :: 0 <= i < |valid| ==> Transformable(valid[i]) by {
      forall i | 0 <= i < |valid| ensures ValidCsv(valid[i]) {
        assert valid[i] in valid;
      }
    }
    var transformed := TransformCsv(valid);
    match transformed {
      case Err(e) => result := Err(e);
      case Ok(out) => result := Ok(SaveCsv(out));
    }
  }

  /** Of the four bundled CSV records, Alice and Diana pass validation. */
  lemma BundledCsvValid(source: string)
    ensures Seqs.Filter(ReadCsv(source), ValidCsv) == [ReadCsv(source)[0], ReadCsv(source)[3]]
  {
    var raw := ReadCsv(source);
    assert Text.IsDigits("30") && Text.IsDigits("28");
    assert !Text.IsDigits("abc") by {
      assert !Text.IsDigit("abc"[0]);
    }
    assert raw[3..][1..] == [];
    assert Seqs.Filter(raw[3..], ValidCsv) == [raw[3]];
    assert raw[2..][1..] == raw[3..];
    assert Seqs.Filter(raw[2..], ValidCsv) == [raw[3]];
    assert raw[1..][1..] == raw[2..];
    assert Seqs.Filter(raw[1..], ValidCsv) == [raw[3]];
  }

  /** Processing the bundled CSV records saves two: ALICE aged 30 in New York and DIANA aged 28 in Houston. */
  lemma BundledCsvProcessed(source: string)
    ensures var out := TransformCsv(Seqs.Filter(ReadCsv(source), ValidCsv));
      out == Ok([CsvOut("ALICE", 30, "New York"), CsvOut("DIANA", 28, "Houston")])
  {
    BundledCsvValid(source);
    var raw := ReadCsv(source);
    assert Text.Upper("Alice") == "ALICE" && Text.Upper("Diana") == "DIANA";
    assert Text.DigitsValue("30") == 30 by {
      assert "30"[..1] == "3";
    }
    assert Text.DigitsValue("28") == 28 by {
      assert "28"[..1] == "2";
    }
    assert Transformable(raw[0]) && Age(raw[0]) == 30;
    assert Transformable(raw[3]) && Age(raw[3]) == 28;
    assert TransformCsvRecord(raw[0]) == CsvOut("ALICE", 30, "New York");
    assert TransformCsvRecord(raw[3]) == CsvOut("DIANA", 28, "Houston");
    var valid := [raw[0], raw[3]];
    var t := TransformCsv(valid);
    assert "city" in valid[0] && "city" in valid[1];
    assert t.Ok? && |t.value| == 2;
    assert t.value[0] == CsvOut("ALICE", 30, "New York");
    assert t.value[1] == CsvOut("DIANA", 28, "Houston");
    assert t.value == [CsvOut("ALICE", 30, "New York"), CsvOut("DIANA", 28, "Houston")];
  }

  // ---------------------------------------------------------------------
  // JSON processor
  // ---------------------------------------------------------------------

  /** A raw JSON record; the bundled records always carry all three keys. */
  datatype JsonRecord = JsonRecord(product: string, price: real, stock: int)

  /** The price is kept as a number; its two-decimal dollar text is not part of this model. */
  datatype JsonOut = JsonOut(item: string, priceUsd: real, available: bool)

  /** `JSONDataProcessor.read_data`. */
  function ReadJson(source: string): seq<JsonRecord>
  {
    [JsonRecord("Laptop", 999.99, 10), JsonRecord("", -5.0, 0), JsonRecord("Phone", 599.99, 25), JsonRecord("Tablet", 399.99, 0)]
  }

  predicate ValidJson(r: JsonRecord)
  {
    r.product != "" && r.price > 0.0
  }

  /** `JSONDataProcessor.validate_data`: the comprehension that keeps the valid records. */
  function ValidateJson(data: seq<JsonRecord>): (valid: seq<JsonRecord>)
  {
    Seqs.Filter(data, ValidJson)
  }

  /** JSON validation keeps exactly the records with a product and a positive price, in their order. */
  lemma ValidateJsonKeeps(data: seq<JsonRecord>)
    ensures forall r :: r in ValidateJson(data) <==> r in data && r.product != "" && r.price > 0.0
    ensures Seqs.IsSubsequence(ValidateJson(data), data)
  {
    Seqs.FilterMembers(data, ValidJson);
    Seqs.FilterIsSubsequence(data, ValidJson);
  }

  function TransformJsonRecord(r: JsonRecord): JsonOut
  {
    JsonOut(r.product, r.price, r.stock > 0)
  }

  /** `JSONDataProcessor.transform_data`: one output per record, available iff in stock. */
  function TransformJson(data: seq<JsonRecord>): (out: seq<JsonOut>)
    ensures |out| == |data|
    ensures forall i :: 0 <= i < |data| ==>
      out[i].item == data[i].product && out[i].priceUsd == data[i].price && (out[i].available <==> data[i].stock > 0)
  {
    seq(|data|, i requires 0 <= i < |data| => TransformJsonRecord(data[i]))
  }

  function SaveJson(data: seq<JsonOut>): Saved<JsonOut>
  {
    Saved("JSON", |data|, data)
  }

  /** `DataProcessor.process` for JSON. */
  function ProcessJson(source: string): Saved<JsonOut>
  {
    SaveJson(TransformJson(ValidateJson(ReadJson(source))))
  }

  /** The number of records saved is the number of valid records read, and each saved record comes from one of them. */
  lemma ProcessJsonCounts(source: string)
    ensures var saved := ProcessJson(source); var valid := ValidateJson(ReadJson(source));
      saved.format == "JSON" && saved.recordsSaved == |valid| == |saved.data| &&
      forall i :: 0 <= i < |valid| ==> saved.data[i].item == valid[i].product && valid[i] in ReadJson(source)
  {
    ValidateJsonKeeps(ReadJson(source));
    var valid := ValidateJson(ReadJson(source));
    assert forall i :: 0 <= i < |valid| ==> valid[i] in valid;
  }

  /** Of the bundled JSON records, the laptop, the phone and the tablet are saved; only the tablet is unavailable. */
  lemma BundledJsonProcessed(source: string)
    ensures ProcessJson(source).data == [JsonOut("Laptop", 999.99, true), JsonOut("Phone", 599.99, true), JsonOut("Tablet", 399.99, false)]
  {
    var raw := ReadJson(source);
    assert raw[3..][1..] == [];
    assert ValidJson(raw[3]);
    assert Seqs.Filter(raw[3..], ValidJson) == [raw[3]];
    assert raw[2..][1..] == raw[3..];
    assert Seqs.Filter(raw[2..], ValidJson) == [raw[2], raw[3]];
    assert raw[1..][1..] == raw[2..];
    assert Seqs.Filter(raw[1..], ValidJson) == [raw[2], raw[3]];
    assert ValidateJson(raw) == [raw[0], raw[2], raw[3]];
  }

  // ---------------------------------------------------------------------
  // Beverages
  // ---------------------------------------------------------------------

  datatype Beverage = Tea | Coffee | HotChocolate | BlackCoffee

  function Brew(b: Beverage): string
  {
    match b
    case Tea => "Steep tea bag"
    case Coffee => "Drip brew coffee"
    case HotChocolate => "Mix cocoa powder"
    case BlackCoffee => "Brew strong espresso"
  }

  function AddCondiments(b: Beverage): string
  {
    match b
    case Tea => "Add lemon"
    case Coffee => "Add sugar and cream"
    case HotChocolate => "Add marshmallows"
    case BlackCoffee => ""
  }

  /** The hook: every drink but black coffee wants condiments. */
  predicate WantsCondiments(b: Beverage)
  {
    b != BlackCoffee
  }

  const BoilWater := "Boil water"
  const PourInCup := "Pour in cup"
  const Arrow := " → "

  /** The steps `make` collects, in order. */
  function Steps(b: Beverage): (steps: seq<string>)
    ensures |steps| == if WantsCondiments(b) then 4 else 3
    ensures steps[..3] == [BoilWater, Brew(b), PourInCup]
  {
    [BoilWater, Brew(b), PourInCup] + (if WantsCondiments(b) then [AddCondiments(b)] else [])
  }

  /** `BeverageMaker.make`: the steps joined by arrows. */
  function Make(b: Beverage): string
  {
    Text.Join(Steps(b), Arrow)
  }

  /** The recipe is the same three steps for every drink, with the condiment step appended iff the hook wants it. */
  lemma MakeRecipe(b: Beverage)
    ensures Make(b) == BoilWater + Arrow + Brew(b) + Arrow + PourInCup +
      (if WantsCondiments(b) then Arrow + AddCondiments(b) else "")
  {
    var extra := if WantsCondiments(b) then [AddCondiments(b)] else [];
    JoinSteps(BoilWater, Brew(b), PourInCup, extra, Arrow);
  }

  lemma JoinSteps(x: string, y: string, z: string, extra: seq<string>, sep: string)
    requires |extra| <= 1
    ensures Text.Join([x, y, z] + extra, sep) == x + sep + y + sep + z + (if extra == [] then "" else sep + extra[0])
  {
    var tail := [z] + extra;
    if extra == [] {
      assert tail == [z];
    } else {
      Text.JoinCons(z, extra, sep);
      assert Text.Join(extra, sep) == extra[0];
    }
    Text.JoinCons(y, tail, sep);
    Text.JoinCons(x, [y] + tail, sep);
    assert [x, y, z] + extra == [x] + ([y] + tail);
  }

  /** Black coffee is made in exactly three steps and gets no condiments. */
  lemma BlackCoffeeSteps()
    ensures |Steps(BlackCoffee)| == 3
    ensures Make(BlackCoffee) == BoilWater + Arrow + "Brew strong espresso" + Arrow + PourInCup
  {
    MakeRecipe(BlackCoffee);
  }
}
