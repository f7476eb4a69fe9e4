/** The program catalog: one record per extracurricular program, and the lookup
    every loader performs on the parsed JSON document. */
module Catalog {
  import opened Wrappers

  /** A well-formed catalog record. The fields are the JSON keys 제목 (title),
      설명 (description), 기간 (period), 장소 (location), 혜택 (benefits),
      신청대상 (target audience) and 문의처 (contact). */
  datatype Record = Record(
    title: string,
    description: string,
    period: string,
    location: string,
    benefits: string,
    target: string,
    contact: string)

  /** A JSON value stored under one key of a raw catalog entry. */
  datatype FieldValue = Text(text: string) | TextList(items: seq<string>)

  /** A catalog entry as json.load returns it: key to value. */
  type RawProgram = map<string, FieldValue>

  /** The keys a catalog document may store its program list under, in the order
      the loaders try them. */
  const InfoKey := "프로그램_정보"
  const ExtracurricularKey := "비교과_프로그램"
  const ProgramKey := "프로그램"
  const CatalogKeys := [InfoKey, ExtracurricularKey, ProgramKey]

  /** The list stored under the first recognised key the document has, in the order
      CatalogKeys gives, or the empty list when it has none. */
  function ListedPrograms<T>(data: map<string, seq<T>>): seq<T>
  {
    if InfoKey in data then data[InfoKey]
    else if ExtracurricularKey in data then data[ExtracurricularKey]
    else if ProgramKey in data then data[ProgramKey]
    else []
  }

  /** ListedPrograms read positionally: the value of the first present key, or empty
      exactly when no recognised key is present. */
  lemma ListedProgramsIsFirstPresent<T>(data: map<string, seq<T>>)
    ensures (forall k :: k in CatalogKeys ==> k !in data) ==> ListedPrograms(data) == []
    ensures forall i :: 0 <= i < |CatalogKeys| && CatalogKeys[i] in data
                        && (forall j :: 0 <= j < i ==> CatalogKeys[j] !in data) ==>
              ListedPrograms(data) == data[CatalogKeys[i]]
  {
    assert CatalogKeys[0] == InfoKey && CatalogKeys[1] == ExtracurricularKey && CatalogKeys[2] == ProgramKey;
  }

  /** The key loop of load_program_data. */
  method LookupPrograms<T>(data: map<string, seq<T>>) returns (programs: seq<T>)
    ensures programs == ListedPrograms(data)
  {
    assert CatalogKeys[0] == InfoKey && CatalogKeys[1] == ExtracurricularKey && CatalogKeys[2] == ProgramKey;
    var i := 0;
    while i < |CatalogKeys|
      invariant 0 <= i <= |CatalogKeys|
      invariant forall j :: 0 <= j < i ==> CatalogKeys[j] !in data
    {
      var key := CatalogKeys[i];
      if key in data {
        return data[key];
      }
      i := i + 1;
    }
    return [];
  }

  /** load_program_data of the scripts with a fixed path: `document` is the parsed
      file, or None when opening or parsing it raised (the except branch). */
  method LoadProgramData<T>(document: Option<map<string, seq<T>>>) returns (programs: seq<T>)
    ensures document.None? ==> programs == []
    ensures document.Some? ==> programs == ListedPrograms(document.value)
  {
    if document.None? {
      return [];
    }
    programs := LookupPrograms(document.value);
  }

  /** The test5 loader: a path that does not exist yields the empty catalog before
      the file is opened. */
  method LoadProgramDataAt<T>(pathExists: bool, document: Option<map<string, seq<T>>>)
    returns (programs: seq<T>)
    ensures !pathExists || document.None? ==> programs == []
    ensures pathExists && document.Some? ==> programs == ListedPrograms(document.value)
  {
    if !pathExists {
      return [];
    }
    programs := LoadProgramData(document);
  }
}
