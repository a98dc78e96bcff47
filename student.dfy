/** The `Student` mongoose model. */
module StudentSchema {

  /** The `enum` of the `workingInIT` path. */
  const WorkingInITValues: seq<string> := ["yes", "no"]

  /** One registered student; `id` is mongo's `_id`, the timestamps come from the schema's
      `timestamps` option. */
  datatype Student = Student(
    id: nat,
    studentName: string,
    whatsappNumber: string,
    highestQualification: string,
    workingInIT: string,
    createdAt: nat,
    updatedAt: nat)

  /** What schema validation accepts: the four paths are required, `workingInIT` is `yes`
      or `no`. */
  predicate ValidStudent(s: Student)
  {
    && s.studentName != ""
    && s.whatsappNumber != ""
    && s.highestQualification != ""
    && s.workingInIT in WorkingInITValues
  }

  /** The stored students. */
  class StudentCollection {
    var docs: seq<Student>
    var nextId: nat

    ghost predicate Valid()
      reads this
    {
      && (forall i, j :: 0 <= i < j < |docs| ==> docs[i].id != docs[j].id)
      && (forall s :: s in docs ==> s.id < nextId && ValidStudent(s))
    }

    constructor ()
      ensures Valid() && docs == []
    {
      docs := [];
      nextId := 0;
    }
  }
}

/** Student registration and the two listings. */
module StudentController {
  import opened Common
  import opened Seqs
  import opened StudentSchema

  /** The body of `POST /api/students/register`. */
  datatype Registration = Registration(
    studentName: Option<string>,
    whatsappNumber: Option<string>,
    highestQualification: Option<string>,
    workingInIT: Option<string>)

  /** The document `new Student(...)` builds from exactly the four submitted fields. */
  function NewStudent(r: Registration, id: nat, now: nat): (s: Student)
    ensures s.studentName == Text(r.studentName) && s.whatsappNumber == Text(r.whatsappNumber)
    ensures s.highestQualification == Text(r.highestQualification)
    ensures s.workingInIT == Text(r.workingInIT)
    ensures ValidStudent(s) <==>
      && Present(r.studentName) && Present(r.whatsappNumber) && Present(r.highestQualification)
      && Text(r.workingInIT) in WorkingInITValues
  {
    Student(id, Text(r.studentName), Text(r.whatsappNumber), Text(r.highestQualification),
            Text(r.workingInIT), now, now)
  }

  /** `registerStudent`: 201 and one new student holding the four submitted fields, or, when
      validation fails, 500 and nothing stored. */
  method RegisterStudent(store: StudentCollection, r: Registration, now: nat)
    returns (status: int, student: Option<Student>)
    requires store.Valid()
    modifies store
    ensures store.Valid()
    ensures status == Created <==> ValidStudent(NewStudent(r, old(store.nextId), now))
    ensures status == Created || status == ServerError
    ensures status == Created <==> student.Some?
    ensures student.None? ==> store.docs == old(store.docs) && store.nextId == old(store.nextId)
    ensures student.Some? ==>
      && student.value == NewStudent(r, old(store.nextId), now)
      && store.docs == old(store.docs) + [student.value]
  {
    var s := NewStudent(r, store.nextId, now);
    if !ValidStudent(s) {
      return ServerError, None;
    }
    store.docs := store.docs + [s];
    store.nextId := store.nextId + 1;
    status, student := Created, Some(s);
  }

  function CreatedAt(s: Student): int
  {
    s.createdAt
  }

  /** `getAllStudents`: every student, newest first. */
  function GetAllStudents(store: StudentCollection): (r: seq<Student>)
    reads store
    ensures SortedDesc(r, CreatedAt)
    ensures multiset(r) == multiset(store.docs)
  {
    SortDesc(store.docs, CreatedAt)
  }

  /** What `select('studentName highestQualification createdAt')` keeps; `_id` is kept
      unless a selection excludes it. */
  datatype PublicStudent = PublicStudent(
    id: nat, studentName: string, highestQualification: string, createdAt: nat)

  function Project(s: Student): PublicStudent
  {
    PublicStudent(s.id, s.studentName, s.highestQualification, s.createdAt)
  }

  function PublicCreatedAt(p: PublicStudent): int
  {
    p.createdAt
  }

  /** The selected fields of every student, sorted newest first. */
  function PublicList(docs: seq<Student>): (r: seq<PublicStudent>)
    ensures r == MapSeq(SortDesc(docs, CreatedAt), Project)
  {
    MapSortDesc(docs, CreatedAt, Project, PublicCreatedAt);
    SortDesc(MapSeq(docs, Project), PublicCreatedAt)
  }

  /** `getPublicStudents`: the same students in the same order as `getAllStudents`,
      each reduced to its public fields. */
  function GetPublicStudents(store: StudentCollection): (r: seq<PublicStudent>)
    reads store
    ensures |r| == |GetAllStudents(store)|
    ensures forall i :: 0 <= i < |r| ==> r[i] == Project(GetAllStudents(store)[i])
  {
    PublicList(store.docs)
  }

  /** The phone number and employment answer with arbitrary contents. */
  function Overwrite(whatsappNumber: string, workingInIT: string): Student -> Student
  {
    (s: Student) => s.(whatsappNumber := whatsappNumber, workingInIT := workingInIT)
  }

  /** The public listing reveals nothing of `whatsappNumber` or `workingInIT`: overwriting them
      in every stored student leaves it as it was. */
  lemma PublicListHidesPrivateFields(docs: seq<Student>, whatsappNumber: string, workingInIT: string)
    ensures PublicList(MapSeq(docs, Overwrite(whatsappNumber, workingInIT))) == PublicList(docs)
  {
    var f := Overwrite(whatsappNumber, workingInIT);
    var docs' := MapSeq(docs, f);
    assert MapSeq(docs', Project) == MapSeq(docs, Project);
  }
}
