/** The study-material record shared by the catalog, the dashboard and the backpack. */
module Types {

  /** The three kinds of material; `Label` is the string the record's `type` field holds. */
  datatype MaterialType = QuestionPaper | Notes | Syllabus {
    function Label(): string {
      match this
      case QuestionPaper => "Question Paper"
      case Notes => "Notes"
      case Syllabus => "Syllabus"
    }
  }

  /** One catalog entry. The record's `type` field is called `kind` here; `semester` and `year` are integral numbers. */
  datatype Material = Material(
    id: string,
    title: string,
    kind: MaterialType,
    subject: string,
    semester: int,
    year: int,
    description: string,
    fileUrl: string)

  /** No two entries share an id. */
  ghost predicate UniqueIds(items: seq<Material>) {
    forall i, j :: 0 <= i < j < |items| ==> items[i].id != items[j].id
  }
}
