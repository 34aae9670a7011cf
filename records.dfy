/** The records the service reads from the remote API and keeps in the store. */
module Records {

  /** The name of a chapter in some language. */
  datatype TranslatedName = TranslatedName(languageName: string, name: string)

  /** Go's `[2]int`: the first and the last page of a chapter. */
  type PageRange = s: seq<int> | |s| == 2 witness [0, 0]

  /** Lightweight chapter metadata. */
  datatype ChapterSummary = ChapterSummary(
    id: int,
    number: int,
    bismallahPre: bool,
    revelationOrder: int,
    revelationPlace: string,
    nameTransliteration: string,
    nameArabic: string,
    nameSimple: string,
    verseCount: int,
    pages: PageRange,
    translatedName: TranslatedName)
  {
    function StartPage(): int { pages[0] }

    function EndPage(): int { pages[1] }
  }

  /** The page range of a full chapter. */
  datatype Pages = Pages(start: int, end: int)

  /** A verse; the logic never looks inside it, so only its identifying fields are kept. */
  datatype Verse = Verse(id: int, verseNumber: int, chapterId: int, verseKey: string)

  /** A full chapter: the summary's metadata, a page range and the verses in order. */
  datatype Chapter = Chapter(
    id: int,
    number: int,
    bismallahPre: bool,
    revelationOrder: int,
    revelationPlace: string,
    nameTransliteration: string,
    nameArabic: string,
    nameSimple: string,
    pages: Pages,
    translatedName: TranslatedName,
    verses: seq<Verse>)

  /** The chapter record built from a summary and the verses fetched for it. */
  function Assemble(s: ChapterSummary, verses: seq<Verse>): Chapter
  {
    Chapter(
      id := s.id,
      number := s.number,
      bismallahPre := s.bismallahPre,
      revelationOrder := s.revelationOrder,
      revelationPlace := s.revelationPlace,
      nameArabic := s.nameArabic,
      nameSimple := s.nameSimple,
      nameTransliteration := s.nameTransliteration,
      pages := Pages(s.StartPage(), s.EndPage()),
      translatedName := TranslatedName(s.translatedName.languageName, s.translatedName.name),
      verses := verses)
  }

  /** `c` carries exactly the metadata of `s`, field by field, with `s.pages` as a Pages pair. */
  predicate Describes(c: Chapter, s: ChapterSummary)
  {
    && c.id == s.id
    && c.number == s.number
    && c.bismallahPre == s.bismallahPre
    && c.revelationOrder == s.revelationOrder
    && c.revelationPlace == s.revelationPlace
    && c.nameArabic == s.nameArabic
    && c.nameSimple == s.nameSimple
    && c.nameTransliteration == s.nameTransliteration
    && c.pages.start == s.pages[0]
    && c.pages.end == s.pages[1]
    && c.translatedName == s.translatedName
  }

  /** Assembly copies the summary's metadata and keeps the verses as given;
      and it is the only chapter that does. */
  lemma AssembleIsFieldCopy(s: ChapterSummary, verses: seq<Verse>, c: Chapter)
    ensures Describes(Assemble(s, verses), s) && Assemble(s, verses).verses == verses
    ensures Describes(c, s) && c.verses == verses ==> c == Assemble(s, verses)
  {
  }
}
