/**
 * The stored records the views and serializers work on, as values. Only
 * the fields they read are modelled; the ORM that stores them is not.
 */
module Models {

  datatype Medication = Medication(id: int, name: string, dosageMg: int, prescribedPerDay: int)

  /** One logged dose; `takenAt` is an instant (for instance seconds since an epoch). */
  datatype DoseLog = DoseLog(id: int, medication: int, takenAt: int, wasTaken: bool)

  /** A doctor's note; `createdAt` is the instant the store stamped on it. */
  datatype DoctorNote = DoctorNote(id: int, medication: int, text: string, createdAt: int)

  /** The sort key of `order_by("taken_at")`. */
  function TakenAt(log: DoseLog): int {
    log.takenAt
  }
}
