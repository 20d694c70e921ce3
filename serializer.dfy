/**
 * The per-record array literals of `getIndividuals` and `getFamilies`. The
 * genealogy records are read-only values here; what webtrees computes for
 * them (full name, place name, the formatted minimum date, the URL) is a
 * field of the record.
 */
module Serializer {
  import opened Wrappers
  import opened Json

  /** An event date: whether it `isOK()`, and `minimumDate()->format('Y-m-d')`. */
  datatype EventDate = EventDate(isOK: bool, minimumYmd: string)

  datatype Individual = Individual(
    xref: string,
    fullName: string,
    birth: EventDate,
    death: EventDate,
    birthPlace: string,   // getBirthPlace()->gedcomName()
    deathPlace: string,   // getDeathPlace()->gedcomName()
    sex: string,
    url: string)

  datatype Family = Family(
    xref: string,
    husband: Option<Individual>,
    wife: Option<Individual>,
    marriage: EventDate,
    marriagePlace: string,  // getMarriagePlace()->gedcomName()
    children: seq<Individual>,
    url: string)

  const IndividualKeys: seq<string> :=
    ["id", "name", "birth_date", "death_date", "birth_place", "death_place", "sex", "url"]
  const FamilyKeys: seq<string> :=
    ["id", "husband", "wife", "marriage_date", "marriage_place", "children_count", "url"]
  const SpouseKeys: seq<string> := ["id", "name"]

  /** The individual keys, as a set, and none of them twice. */
  lemma IndividualKeySet()
    ensures Distinct(IndividualKeys)
    ensures (set k | k in IndividualKeys) == {"id", "name", "birth_date", "death_date", "birth_place", "death_place", "sex", "url"}
  {
  }

  /** The family keys, as a set, and none of them twice. */
  lemma FamilyKeySet()
    ensures Distinct(FamilyKeys)
    ensures (set k | k in FamilyKeys) == {"id", "husband", "wife", "marriage_date", "marriage_place", "children_count", "url"}
  {
  }

  /** `$date->isOK() ? $date->minimumDate()->format('Y-m-d') : null`. */
  function DateValue(d: EventDate): (j: Json)
    ensures j == JNull <==> !d.isOK
    ensures d.isOK ==> j == JString(d.minimumYmd)
  {
    if d.isOK then JString(d.minimumYmd) else JNull
  }

  /** `$spouse ? ['id' => ..., 'name' => ...] : null`. */
  function SpouseValue(spouse: Option<Individual>): (j: Json)
    ensures j == JNull <==> spouse.None?
    ensures spouse.Some? ==>
      && IsObject(j, SpouseKeys)
      && Get(j, "id") == Some(JString(spouse.value.xref))
      && Get(j, "name") == Some(JString(spouse.value.fullName))
  {
    match spouse
    case None => JNull
    case Some(p) => JObject(SpouseKeys, map["id" := JString(p.xref), "name" := JString(p.fullName)])
  }

  /**
   * The document of one individual. Every individual gives the same eight
   * keys in the same order; a date is null exactly when it is not OK; the
   * other fields are copied across.
   */
  function IndividualDocument(p: Individual): (j: Json)
    ensures IsObject(j, IndividualKeys)
    ensures Get(j, "birth_date") == Some(JNull) <==> !p.birth.isOK
    ensures Get(j, "death_date") == Some(JNull) <==> !p.death.isOK
    ensures p.birth.isOK ==> Get(j, "birth_date") == Some(JString(p.birth.minimumYmd))
    ensures p.death.isOK ==> Get(j, "death_date") == Some(JString(p.death.minimumYmd))
    ensures Get(j, "id") == Some(JString(p.xref)) && Get(j, "name") == Some(JString(p.fullName))
    ensures Get(j, "birth_place") == Some(JString(p.birthPlace))
    ensures Get(j, "death_place") == Some(JString(p.deathPlace))
    ensures Get(j, "sex") == Some(JString(p.sex)) && Get(j, "url") == Some(JString(p.url))
  {
    var values := map["id" := JString(p.xref),
                      "name" := JString(p.fullName),
                      "birth_date" := DateValue(p.birth),
                      "death_date" := DateValue(p.death),
                      "birth_place" := JString(p.birthPlace),
                      "death_place" := JString(p.deathPlace),
                      "sex" := JString(p.sex),
                      "url" := JString(p.url)];
    IndividualKeySet();
    assert values.Keys == {"id", "name", "birth_date", "death_date", "birth_place", "death_place", "sex", "url"};
    JObject(IndividualKeys, values)
  }

  /**
   * The document of one family. Every family gives the same seven keys; a
   * missing husband or wife is a null value under a present key, otherwise
   * the spouse's id and name; the marriage date follows the date rule; the
   * children are counted.
   */
  function FamilyDocument(f: Family): (j: Json)
    ensures IsObject(j, FamilyKeys)
    ensures Get(j, "husband") == Some(JNull) <==> f.husband.None?
    ensures Get(j, "wife") == Some(JNull) <==> f.wife.None?
    ensures Get(j, "husband") == Some(SpouseValue(f.husband))
    ensures Get(j, "wife") == Some(SpouseValue(f.wife))
    ensures Get(j, "marriage_date") == Some(JNull) <==> !f.marriage.isOK
    ensures f.marriage.isOK ==> Get(j, "marriage_date") == Some(JString(f.marriage.minimumYmd))
    ensures Get(j, "id") == Some(JString(f.xref)) && Get(j, "url") == Some(JString(f.url))
    ensures Get(j, "marriage_place") == Some(JString(f.marriagePlace))
    ensures Get(j, "children_count") == Some(JInt(|f.children|))
  {
    var values := map["id" := JString(f.xref),
                      "husband" := SpouseValue(f.husband),
                      "wife" := SpouseValue(f.wife),
                      "marriage_date" := DateValue(f.marriage),
                      "marriage_place" := JString(f.marriagePlace),
                      "children_count" := JInt(|f.children|),
                      "url" := JString(f.url)];
    FamilyKeySet();
    assert values.Keys == {"id", "husband", "wife", "marriage_date", "marriage_place", "children_count", "url"};
    JObject(FamilyKeys, values)
  }

  /**
   * A recorded spouse appears under its key as `{id, name}`: the spouse's
   * own identifier and full name, and nothing else.
   */
  lemma SpouseDocuments(f: Family)
    ensures f.husband.Some? ==>
      Path(FamilyDocument(f), ["husband", "id"]) == Some(JString(f.husband.value.xref)) &&
      Path(FamilyDocument(f), ["husband", "name"]) == Some(JString(f.husband.value.fullName))
    ensures f.wife.Some? ==>
      Path(FamilyDocument(f), ["wife", "id"]) == Some(JString(f.wife.value.xref)) &&
      Path(FamilyDocument(f), ["wife", "name"]) == Some(JString(f.wife.value.fullName))
  {
    var j := FamilyDocument(f);
    assert Path(j, ["husband", "id"]) == Path(SpouseValue(f.husband), ["id"]);
    assert Path(j, ["husband", "name"]) == Path(SpouseValue(f.husband), ["name"]);
    assert Path(j, ["wife", "id"]) == Path(SpouseValue(f.wife), ["id"]);
    assert Path(j, ["wife", "name"]) == Path(SpouseValue(f.wife), ["name"]);
  }
}
