/** The shapes the storage layer exchanges with the UI: course entries, plan
    maps, the logged-in user and the per-plan records of the stores. */
module UserType {
  import opened Wrappers

  /** A course entry: its code and its grade. A grade >= 0 approves the course
      with that grade, -1 marks it regularised (coursework done, final exam
      pending) and any other negative grade marks it not approved. A null entry
      or an entry without an id is represented by the empty id. */
  datatype Course = Course(id: string, nota: int)

  /** The plan map of one student: course entries in UI order, plus the names of
      the ticked checkboxes (`None` when the field is absent). */
  datatype PlanMap = PlanMap(materias: seq<Course>, checkboxes: Option<seq<string>>)

  /** The logged-in user: student number, plan id, the chosen orientation's
      name and the chosen final-project track's id, when there are any. */
  datatype UserInfo = UserInfo(
    padron: string,
    carrera: string,
    orientacion: Option<string>,
    finDeCarrera: Option<string>)

  /** One plan a student has logged into; `None` stands for `undefined`. */
  datatype CarreraInfo = CarreraInfo(
    carreraid: string,
    orientacionid: Option<string>,
    findecarreraid: Option<string>)

  /** A saved plan map (the `map` field) together with the plan it belongs to. */
  datatype MapRecord = MapRecord(carreraid: string, plan: PlanMap)
}
