/** The book serializers: normalisation of the type-specific fields, the per-type
    validation rules, the factory that picks a serializer from `book_type`, and the
    `create`/`update` flows that compose them. Request data is a Python dict, modelled as
    a map from field names to JSON-like values. */
module Serializers {
  import opened Common
  import Models

  datatype Value = Null | Int(i: int) | Str(s: string) | Bool(b: bool)

  type Data = map<string, Value>

  const BookTypeKey := "book_type"
  const PagesKey := "pages"
  const FileFormatKey := "file_format"
  const DurationKey := "duration"

  /** The `book_type` values of the three serializers, as the model stores them. */
  const PrintedType := Str(Models.BookTypeValue(Models.Printed))
  const EbookType := Str(Models.BookTypeValue(Models.Ebook))
  const AudiobookType := Str(Models.BookTypeValue(Models.Audiobook))

  const WrongPrintedTypeDetail := "Invalid book type for PrintedBookSerializer."
  const PagesRequiredDetail := "Pages is required for printed books."
  const PagesPositiveDetail := "Pages must be a positive integer."
  const WrongEbookTypeDetail := "Invalid book type for EbookSerializer."
  const FileFormatRequiredDetail := "File format is required for ebooks."
  const WrongAudiobookTypeDetail := "Invalid book type for AudiobookSerializer."
  const DurationRequiredDetail := "Duration is required for audiobooks."
  const DurationPositiveDetail := "Duration must be a positive integer."
  const UnknownTypeDetail := "Invalid book type. Must be 'printed', 'ebook', or 'audiobook'."

  /** `data.get(key)`: a missing key reads as `None`. */
  function Get(data: Data, key: string): Value
  {
    if key in data then data[key] else Null
  }

  /** Python truthiness. */
  predicate Truthy(v: Value)
  {
    match v
    case Null => false
    case Int(i) => i != 0
    case Str(s) => s != ""
    case Bool(b) => b
  }

  /** The integer Python compares in `v <= 0`: a bool is 0 or 1, anything else raises. */
  function AsInt(v: Value): Option<int>
  {
    match v
    case Int(i) => Some(i)
    case Bool(b) => Some(if b then 1 else 0)
    case _ => None
  }

  /** Reference for the "present and positive" checks. */
  predicate PositiveInteger(v: Value)
  {
    v == Bool(true) || (v.Int? && v.i > 0)
  }

  predicate KnownType(bookType: Value)
  {
    bookType == PrintedType || bookType == EbookType || bookType == AudiobookType
  }

  // ---------------------------------------------------------------------------
  // set_null_for_unrelated_fields

  /** The fields that do not belong to a book type, in the order they are nulled. */
  function UnrelatedFields(bookType: Value): (fields: seq<string>)
    ensures BookTypeKey !in fields
    ensures !KnownType(bookType) ==> fields == []
  {
    if bookType == PrintedType then [DurationKey, FileFormatKey]
    else if bookType == EbookType then [PagesKey, DurationKey]
    else if bookType == AudiobookType then [PagesKey, FileFormatKey]
    else []
  }

  /** Specification of the normalisation: the unrelated fields of the data's own type are
      set to null; every other key keeps its presence and value. */
  function Normalised(data: Data): (r: Data)
    ensures forall k :: k in r <==> k in data || k in UnrelatedFields(Get(data, BookTypeKey))
    ensures forall k :: k in UnrelatedFields(Get(data, BookTypeKey)) ==> k in r && r[k] == Null
    ensures forall k :: k in data && k !in UnrelatedFields(Get(data, BookTypeKey)) ==> r[k] == data[k]
  {
    data + map f | f in UnrelatedFields(Get(data, BookTypeKey)) :: Null
  }

  /** Writes null into each unrelated field, one at a time. The source mutates the dict it
      is given and returns it; the caller rebinds its variable to the result. */
  method SetNullForUnrelatedFields(validatedData: Data) returns (r: Data)
    ensures r == Normalised(validatedData)
  {
    var fields := UnrelatedFields(Get(validatedData, BookTypeKey));
    r := validatedData;
    var i := 0;
    while i < |fields|
      invariant 0 <= i <= |fields|
      invariant r == validatedData + map f | f in fields[..i] :: Null
    {
      assert fields[..i + 1] == fields[..i] + [fields[i]];
      r := r[fields[i] := Null];
      i := i + 1;
    }
    assert fields[..|fields|] == fields;
  }

  /** Per type: printed books lose duration and file format, ebooks pages and duration,
      audiobooks pages and file format; the type's own field and `book_type` are kept. */
  lemma NormalisedByType(data: Data)
    ensures Get(Normalised(data), BookTypeKey) == Get(data, BookTypeKey)
    ensures Get(data, BookTypeKey) == PrintedType ==>
              && Get(Normalised(data), DurationKey) == Null
              && Get(Normalised(data), FileFormatKey) == Null
              && Get(Normalised(data), PagesKey) == Get(data, PagesKey)
    ensures Get(data, BookTypeKey) == EbookType ==>
              && Get(Normalised(data), PagesKey) == Null
              && Get(Normalised(data), DurationKey) == Null
              && Get(Normalised(data), FileFormatKey) == Get(data, FileFormatKey)
    ensures Get(data, BookTypeKey) == AudiobookType ==>
              && Get(Normalised(data), PagesKey) == Null
              && Get(Normalised(data), FileFormatKey) == Null
              && Get(Normalised(data), DurationKey) == Get(data, DurationKey)
  {
  }

  /** A missing or unknown `book_type` leaves the data as it is. */
  lemma NormalisedUnknownTypeIsIdentity(data: Data)
    requires !KnownType(Get(data, BookTypeKey))
    ensures Normalised(data) == data
  {
  }

  /** Normalising twice is the same as normalising once. */
  lemma NormalisedIdempotent(data: Data)
    ensures Normalised(Normalised(data)) == Normalised(data)
  {
  }

  // ---------------------------------------------------------------------------
  // The three `validate` methods

  function ValidatePrinted(data: Data): (r: Result<Data>)
    ensures r.Ok? <==> Get(data, BookTypeKey) == PrintedType && PositiveInteger(Get(data, PagesKey))
    ensures r.Ok? ==> r.value == data
    ensures Get(data, BookTypeKey) != PrintedType ==> r == Err(ValidationError(WrongPrintedTypeDetail))
    ensures Get(data, BookTypeKey) == PrintedType && !Truthy(Get(data, PagesKey)) ==>
              r == Err(ValidationError(PagesRequiredDetail))
    ensures Get(data, BookTypeKey) == PrintedType && Get(data, PagesKey).Int? && Get(data, PagesKey).i < 0 ==>
              r == Err(ValidationError(PagesPositiveDetail))
  {
    var pages := Get(data, PagesKey);
    if Get(data, BookTypeKey) != PrintedType then Err(ValidationError(WrongPrintedTypeDetail))
    else if !Truthy(pages) then Err(ValidationError(PagesRequiredDetail))
    else match AsInt(pages)
      case None => Err(TypeError)
      case Some(n) => if n <= 0 then Err(ValidationError(PagesPositiveDetail)) else Ok(data)
  }

  function ValidateEbook(data: Data): (r: Result<Data>)
    ensures r.Ok? <==> Get(data, BookTypeKey) == EbookType && Truthy(Get(data, FileFormatKey))
    ensures r.Ok? ==> r.value == data
    ensures Get(data, BookTypeKey) != EbookType ==> r == Err(ValidationError(WrongEbookTypeDetail))
    ensures Get(data, BookTypeKey) == EbookType && !Truthy(Get(data, FileFormatKey)) ==>
              r == Err(ValidationError(FileFormatRequiredDetail))
  {
    if Get(data, BookTypeKey) != EbookType then Err(ValidationError(WrongEbookTypeDetail))
    else if !Truthy(Get(data, FileFormatKey)) then Err(ValidationError(FileFormatRequiredDetail))
    else Ok(data)
  }

  function ValidateAudiobook(data: Data): (r: Result<Data>)
    ensures r.Ok? <==> Get(data, BookTypeKey) == AudiobookType && PositiveInteger(Get(data, DurationKey))
    ensures r.Ok? ==> r.value == data
    ensures Get(data, BookTypeKey) != AudiobookType ==> r == Err(ValidationError(WrongAudiobookTypeDetail))
    ensures Get(data, BookTypeKey) == AudiobookType && !Truthy(Get(data, DurationKey)) ==>
              r == Err(ValidationError(DurationRequiredDetail))
    ensures Get(data, BookTypeKey) == AudiobookType && Get(data, DurationKey).Int? && Get(data, DurationKey).i < 0 ==>
              r == Err(ValidationError(DurationPositiveDetail))
  {
    var duration := Get(data, DurationKey);
    if Get(data, BookTypeKey) != AudiobookType then Err(ValidationError(WrongAudiobookTypeDetail))
    else if !Truthy(duration) then Err(ValidationError(DurationRequiredDetail))
    else match AsInt(duration)
      case None => Err(TypeError)
      case Some(n) => if n <= 0 then Err(ValidationError(DurationPositiveDetail)) else Ok(data)
  }

  /** A non-zero value that is not a number fails the positivity comparison with a
      TypeError rather than a validation error. */
  lemma TextPagesRaiseTypeError(data: Data, s: string)
    requires Get(data, BookTypeKey) == PrintedType && Get(data, PagesKey) == Str(s) && s != ""
    ensures ValidatePrinted(data) == Err(TypeError)
  {
  }

  // ---------------------------------------------------------------------------
  // BookSerializerFactory

  datatype SerializerKind = PrintedBookSerializer | EbookSerializer | AudiobookSerializer | BaseBookSerializer

  /** The `book_type` a type-specific serializer stands for. */
  function KindType(kind: SerializerKind): Value
  {
    match kind
    case PrintedBookSerializer => PrintedType
    case EbookSerializer => EbookType
    case AudiobookSerializer => AudiobookType
    case BaseBookSerializer => Null
  }

  function GetSerializer(bookType: Value): (r: Result<SerializerKind>)
    ensures r.Ok? <==> KnownType(bookType)
    ensures r.Ok? ==> r.value != BaseBookSerializer && KindType(r.value) == bookType
    ensures r.Err? ==> r.error == FieldValidationError(BookTypeKey, UnknownTypeDetail)
  {
    if bookType == PrintedType then Ok(PrintedBookSerializer)
    else if bookType == EbookType then Ok(EbookSerializer)
    else if bookType == AudiobookType then Ok(AudiobookSerializer)
    else Err(FieldValidationError(BookTypeKey, UnknownTypeDetail))
  }

  /** `serializer.is_valid(raise_exception=True)`, reduced to the serializer's `validate`. */
  function Validate(kind: SerializerKind, data: Data): (r: Result<Data>)
    ensures r.Ok? <==> kind == BaseBookSerializer
                       || (Get(data, BookTypeKey) == KindType(kind) && TypeRuleHolds(KindType(kind), data))
    ensures r.Ok? ==> r.value == data
  {
    match kind
    case PrintedBookSerializer => ValidatePrinted(data)
    case EbookSerializer => ValidateEbook(data)
    case AudiobookSerializer => ValidateAudiobook(data)
    case BaseBookSerializer => Ok(data)
  }

  /** Reference for what the type-specific validation accepts. */
  predicate TypeRuleHolds(bookType: Value, data: Data)
  {
    || (bookType == PrintedType && PositiveInteger(Get(data, PagesKey)))
    || (bookType == EbookType && Truthy(Get(data, FileFormatKey)))
    || (bookType == AudiobookType && PositiveInteger(Get(data, DurationKey)))
  }

  // ---------------------------------------------------------------------------
  // BookSerializer.create / update

  /** Normalises, then validates with the serializer of the data's type. Creation succeeds
      exactly when the type is known and the type's own field passes its rule; what is
      saved is the normalised data. */
  method Create(validatedData: Data) returns (r: Result<Data>)
    ensures r.Ok? <==> TypeRuleHolds(Get(validatedData, BookTypeKey), validatedData)
    ensures r.Ok? ==> r.value == Normalised(validatedData)
    ensures !KnownType(Get(validatedData, BookTypeKey)) ==>
              r == Err(FieldValidationError(BookTypeKey, UnknownTypeDetail))
  {
    NormalisedByType(validatedData);
    var data := SetNullForUnrelatedFields(validatedData);
    var bookType := Get(data, BookTypeKey);
    var serializer := GetSerializer(bookType);
    if serializer.Err? {
      return Err(serializer.error);
    }
    r := Validate(serializer.value, data);
  }

  /** Partial update of a stored row. Without a (truthy) `book_type` no type rule applies;
      with one, the type must be known and the type's own field must be in the request. */
  method Update(instance: Data, validatedData: Data) returns (r: Result<Data>)
    ensures !Truthy(Get(validatedData, BookTypeKey)) ==> r == Ok(instance + validatedData)
    ensures Truthy(Get(validatedData, BookTypeKey)) && !KnownType(Get(validatedData, BookTypeKey)) ==>
              r == Err(FieldValidationError(BookTypeKey, UnknownTypeDetail))
    ensures KnownType(Get(validatedData, BookTypeKey)) ==>
              (r.Ok? <==> TypeRuleHolds(Get(validatedData, BookTypeKey), validatedData))
    ensures r.Ok? ==> r.value == instance + Normalised(validatedData)
  {
    NormalisedByType(validatedData);
    var data := SetNullForUnrelatedFields(validatedData);
    var bookType := Get(data, BookTypeKey);
    var serializer: SerializerKind;
    if Truthy(bookType) {
      var found := GetSerializer(bookType);
      if found.Err? {
        return Err(found.error);
      }
      serializer := found.value;
    } else {
      NormalisedUnknownTypeIsIdentity(validatedData);
      serializer := BaseBookSerializer;
    }
    var checked := Validate(serializer, data);
    if checked.Err? {
      return Err(checked.error);
    }
    r := Ok(instance + checked.value);
  }
}
