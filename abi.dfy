/**
 * The type schema the client hands to the ABI decoder: one struct, `Bet`, and one enum,
 * `BetType`. The source ships it as the JSON text of this value; the text form is not modelled.
 */
module Abi {
  import opened Wrappers
  import BetTypes

  datatype Field = Field(name: string, fieldType: string)

  datatype Variant = Variant(name: string, discriminant: nat)

  datatype TypeDef = Struct(fields: seq<Field>) | Enum(variants: seq<Variant>)

  datatype Schema = Schema(types: map<string, TypeDef>)

  const BetStruct: TypeDef := Struct([
    Field("bet_type", "u32"),
    Field("bet_value", "u32"),
    Field("dice_value", "u32"),
    Field("multiplier", "u32"),
    Field("is_winner", "bool")])

  const BetTypeEnum: TypeDef := Enum([Variant("UNDER", 0), Variant("OVER", 1)])

  /** The schema value passed to every `decodeList` call. */
  const DiceAbi: Schema := Schema(map["Bet" := BetStruct, "BetType" := BetTypeEnum])

  /** The names of a struct's fields, in declaration order. */
  function FieldNames(fields: seq<Field>): (names: seq<string>)
    ensures |names| == |fields|
    ensures forall i :: 0 <= i < |fields| ==> names[i] == fields[i].name
  {
    if fields == [] then [] else [fields[0].name] + FieldNames(fields[1..])
  }

  /** The declared type of the field called `name`, if the struct has one. */
  function FieldType(fields: seq<Field>, name: string): (t: Option<string>)
    ensures t.Some? <==> exists i :: 0 <= i < |fields| && fields[i].name == name
    ensures t.Some? ==> exists i :: 0 <= i < |fields| && fields[i] == Field(name, t.value)
  {
    if fields == [] then None
    else if fields[0].name == name then Some(fields[0].fieldType)
    else
      var t := FieldType(fields[1..], name);
      assert forall i :: 0 < i < |fields| ==> fields[i] == fields[1..][i - 1];
      t
  }

  /** The discriminant the enum declares for the variant called `name`, if any. */
  function Discriminant(variants: seq<Variant>, name: string): (d: Option<nat>)
    ensures d.Some? <==> exists i :: 0 <= i < |variants| && variants[i].name == name
    ensures d.Some? ==> exists i :: 0 <= i < |variants| && variants[i] == Variant(name, d.value)
  {
    if variants == [] then None
    else if variants[0].name == name then Some(variants[0].discriminant)
    else
      var d := Discriminant(variants[1..], name);
      assert forall i :: 0 < i < |variants| ==> variants[i] == variants[1..][i - 1];
      d
  }

  /** The `Bet` struct lists its five fields in the order of `RawBet`'s keys. */
  lemma BetFieldsMatchRawBet()
    ensures "Bet" in DiceAbi.types && DiceAbi.types["Bet"].Struct?
    ensures FieldNames(DiceAbi.types["Bet"].fields) == BetTypes.RawBetKeys
  {
  }

  /** Four fields are `u32` and `is_winner` is `bool`; `bet_type` is not typed by the enum. */
  lemma BetFieldTypes()
    ensures FieldType(BetStruct.fields, "bet_type") == Some("u32")
    ensures FieldType(BetStruct.fields, "bet_value") == Some("u32")
    ensures FieldType(BetStruct.fields, "dice_value") == Some("u32")
    ensures FieldType(BetStruct.fields, "multiplier") == Some("u32")
    ensures FieldType(BetStruct.fields, "is_winner") == Some("bool")
    ensures FieldType(BetStruct.fields, "bet_type") != Some("BetType")
  {
  }

  /** The schema's enum agrees with the client's `BetType` numbers. */
  lemma EnumMatchesBetType()
    ensures "BetType" in DiceAbi.types && DiceAbi.types["BetType"].Enum?
    ensures Discriminant(DiceAbi.types["BetType"].variants, "UNDER") == Some(BetTypes.Under as nat)
    ensures Discriminant(DiceAbi.types["BetType"].variants, "OVER") == Some(BetTypes.Over as nat)
    ensures |DiceAbi.types["BetType"].variants| == 2
  {
  }
}
