/** The record and enumeration shapes of the application's domain. Dates are milliseconds
    since the epoch; optional fields that no modelled operation reads are left out. */
module Types {

  datatype Priority = Low | Medium | High

  datatype AssignmentStatus = Pending | Submitted | Late | Graded

  datatype Assignment = Assignment(
    id: string,
    title: string,
    subject: string,
    description: string,
    dueDate: int,
    status: AssignmentStatus,
    maxMarks: int,
    priority: Priority)

  datatype ClassSchedule = ClassSchedule(
    id: string,
    subject: string,
    teacher: string,
    room: string,
    startTime: string,
    endTime: string,
    day: string)

  datatype Grade = Grade(
    id: string,
    subject: string,
    examType: string,
    maxMarks: int,
    obtainedMarks: int,
    grade: string,
    date: int)

  datatype Category = Academic | Event | Holiday | Exam | General

  datatype Announcement = Announcement(
    id: string,
    title: string,
    content: string,
    category: Category,
    date: int,
    priority: Priority,
    isRead: bool)

  datatype Role = User | Assistant

  /** `isLoading` is optional in the source; an absent flag is modelled as `false`. */
  datatype ChatMessage = ChatMessage(
    id: string,
    content: string,
    role: Role,
    timestamp: int,
    isLoading: bool)

  const MillisPerDay: int := 24 * 60 * 60 * 1000
}
