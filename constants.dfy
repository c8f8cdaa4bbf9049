/** The static catalog the dashboard filters, and the option lists of its selectors. */
module Constants {
  import opened Types

  const Semesters: seq<int> := [1, 2, 3, 4, 5, 6, 7, 8]

  const Subjects: seq<string> := [
    "Data Structures",
    "Algorithms",
    "Operating Systems",
    "Database Management",
    "Computer Networks",
    "Software Engineering"
  ]

  const DummyUrl := "/path/to/dummy.pdf"

  const DsQp2023 := Material("ds-qp-2023", "DS Question Paper 2023", QuestionPaper, "Data Structures", 3, 2023,
      "Final term question paper for Data Structures.", DummyUrl)
  const AlgoNotesUnit1 := Material("algo-notes-unit1", "Algorithms Unit 1 Notes", Notes, "Algorithms", 4, 2024,
      "Comprehensive notes for the first unit of Algorithms.", DummyUrl)
  const OsSyllabus := Material("os-syllabus", "Operating Systems Syllabus", Syllabus, "Operating Systems", 5, 2024,
      "Official syllabus for the OS course.", DummyUrl)
  const DbmsQp2022 := Material("dbms-qp-2022", "DBMS Question Paper 2022", QuestionPaper, "Database Management", 5, 2022,
      "Mid-term question paper for DBMS.", DummyUrl)
  const CnNotesFull := Material("cn-notes-full", "Computer Networks Full Notes", Notes, "Computer Networks", 6, 2023,
      "Complete handwritten notes for all units of CN.", DummyUrl)
  const SeQp2023Internals := Material("se-qp-2023-internals", "SE Internals Paper 2023", QuestionPaper, "Software Engineering", 6, 2023,
      "Internal assessment question paper.", DummyUrl)
  const DsNotesUnit2 := Material("ds-notes-unit2", "DS Unit 2 Notes", Notes, "Data Structures", 3, 2024,
      "Detailed notes on Trees and Graphs.", DummyUrl)
  const AlgoQp2023 := Material("algo-qp-2023", "Algorithms QP 2023", QuestionPaper, "Algorithms", 4, 2023,
      "Final exam paper for Algorithms course.", DummyUrl)

  /** The catalog, in the order the dashboard shows it. */
  const Materials: seq<Material> := [
    DsQp2023,
    AlgoNotesUnit1,
    OsSyllabus,
    DbmsQp2022,
    CnNotesFull,
    SeQp2023Internals,
    DsNotesUnit2,
    AlgoQp2023
  ]

  /** The catalog's ids are pairwise distinct, so it is a valid backpack content as a whole. */
  lemma CatalogIdsUnique()
    ensures UniqueIds(Materials)
  {
  }
}
