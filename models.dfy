/** The `Book` model of the library backend: its fields, their defaults and the bounds the
    database columns impose. `Book` is the value of one row; `BookInstance` is the mutable
    model object that the borrow and return operations update in place. */
module Models {
  import opened Common

  /** Primary key of a Django `User`. */
  type UserId = nat

  datatype BookType = Printed | Ebook | Audiobook

  /** BOOK_TYPE_CHOICES: stored value and human-readable label. */
  const BookTypeChoices: seq<(string, string)> :=
    [("printed", "Printed"), ("ebook", "Ebook"), ("audiobook", "Audiobook")]

  const TitleMaxLength := 255
  const AuthorMaxLength := 255
  const IsbnMaxLength := 13
  const BookTypeMaxLength := 20
  const FileFormatMaxLength := 10

  /** The value stored in the `book_type` column for a type. */
  function BookTypeValue(t: BookType): (s: string)
    ensures exists i :: 0 <= i < |BookTypeChoices| && BookTypeChoices[i].0 == s
    ensures |s| <= BookTypeMaxLength
  {
    match t
    case Printed => assert BookTypeChoices[0].0 == "printed"; "printed"
    case Ebook => assert BookTypeChoices[1].0 == "ebook"; "ebook"
    case Audiobook => assert BookTypeChoices[2].0 == "audiobook"; "audiobook"
  }

  /** Reads a `book_type` column value back; anything outside the choices is rejected. */
  function ParseBookType(s: string): (r: Option<BookType>)
    ensures r.Some? ==> BookTypeValue(r.value) == s
    ensures r.None? ==> forall t :: BookTypeValue(t) != s
  {
    if s == "printed" then Some(Printed)
    else if s == "ebook" then Some(Ebook)
    else if s == "audiobook" then Some(Audiobook)
    else None
  }

  lemma BookTypeRoundTrip(t: BookType)
    ensures ParseBookType(BookTypeValue(t)) == Some(t)
  {
  }

  /** One row of the book table. `pages`, `fileFormat` and `duration` are nullable. */
  datatype Book = Book(
    id: nat,
    title: string,
    author: string,
    isbn: string,
    publishedDate: string,
    available: bool,
    borrowedBy: Option<UserId>,
    bookType: BookType,
    pages: Option<int>,
    fileFormat: Option<string>,
    duration: Option<int>)

  /** The per-column constraints: lengths of the character fields and the non-negativity
      of the `PositiveIntegerField`s (which admit zero). */
  predicate FieldsValid(b: Book)
  {
    && |b.title| <= TitleMaxLength
    && |b.author| <= AuthorMaxLength
    && |b.isbn| <= IsbnMaxLength
    && (b.pages.Some? ==> b.pages.value >= 0)
    && (b.fileFormat.Some? ==> |b.fileFormat.value| <= FileFormatMaxLength)
    && (b.duration.Some? ==> b.duration.value >= 0)
  }

  /** `isbn` is unique across the table. */
  predicate IsbnsUnique(books: seq<Book>)
  {
    forall i, j :: 0 <= i < j < |books| ==> books[i].isbn != books[j].isbn
  }

  lemma AppendKeepsIsbnsUnique(books: seq<Book>, b: Book)
    requires IsbnsUnique(books)
    requires forall k :: 0 <= k < |books| ==> books[k].isbn != b.isbn
    ensures IsbnsUnique(books + [b])
  {
  }

  /** A book created from its required fields: every other field takes its default. */
  function NewBook(id: nat, title: string, author: string, isbn: string, publishedDate: string): (b: Book)
    ensures b.available && b.borrowedBy == None && b.bookType == Printed
    ensures b.pages == None && b.fileFormat == None && b.duration == None
    ensures b.title == title && b.author == author && b.isbn == isbn && b.id == id
    ensures |title| <= TitleMaxLength && |author| <= AuthorMaxLength && |isbn| <= IsbnMaxLength
            <==> FieldsValid(b)
  {
    Book(id, title, author, isbn, publishedDate, true, None, Printed, None, None, None)
  }

  /** `__str__`: "<title> by <author>". */
  function Describe(b: Book): (s: string)
    ensures |s| == |b.title| + 4 + |b.author|
    ensures s[..|b.title|] == b.title && s[|b.title|..|b.title| + 4] == " by "
    ensures s[|b.title| + 4..] == b.author
  {
    b.title + " by " + b.author
  }

  /** Deleting user `u`: `borrowed_by` is `on_delete=SET_NULL`, so every book `u` borrowed
      loses its borrower while `available` keeps its value. */
  function OnBorrowerDeleted(b: Book, u: UserId): (r: Book)
    ensures r.borrowedBy == (if b.borrowedBy == Some(u) then None else b.borrowedBy)
    ensures r == b.(borrowedBy := r.borrowedBy)
  {
    if b.borrowedBy == Some(u) then b.(borrowedBy := None) else b
  }

  /** The model does not tie `available` to `borrowed_by`: deleting the borrower of a
      borrowed book leaves a valid row that is unavailable and has no borrower. */
  lemma DeletingBorrowerStrandsBook(b: Book, u: UserId)
    requires FieldsValid(b) && !b.available && b.borrowedBy == Some(u)
    ensures FieldsValid(OnBorrowerDeleted(b, u))
    ensures !OnBorrowerDeleted(b, u).available && OnBorrowerDeleted(b, u).borrowedBy == None
  {
  }

  /** The model instance, whose fields the borrow and return operations assign in place. */
  class BookInstance {
    var id: nat
    var title: string
    var author: string
    var isbn: string
    var publishedDate: string
    var available: bool
    var borrowedBy: Option<UserId>
    var bookType: BookType
    var pages: Option<int>
    var fileFormat: Option<string>
    var duration: Option<int>

    /** The row this instance would save. */
    function Record(): Book
      reads this
    {
      Book(id, title, author, isbn, publishedDate, available, borrowedBy,
           bookType, pages, fileFormat, duration)
    }

    /** Loads an instance from a stored row. */
    constructor (b: Book)
      ensures Record() == b
    {
      id, title, author, isbn, publishedDate := b.id, b.title, b.author, b.isbn, b.publishedDate;
      available, borrowedBy, bookType := b.available, b.borrowedBy, b.bookType;
      pages, fileFormat, duration := b.pages, b.fileFormat, b.duration;
    }
  }
}
