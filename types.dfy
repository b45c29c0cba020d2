/**
 * The shared record shapes of the platform: users, badges, challenges and
 * quizzes. Strings stay strings where the running code compares them as
 * strings (a user's role comes back from storage as text).
 */
module Types {
  import opened Wrappers

  /** The three roles a user may have. */
  datatype Role = Student | School | Ngo

  /** The text the code stores and compares for a role. */
  function RoleName(r: Role): string {
    match r
    case Student => "student"
    case School => "school"
    case Ngo => "ngo"
  }

  /** Reads a role from its text; any other text is not a role. */
  function RoleOf(s: string): (r: Option<Role>)
    ensures r.None? ==> forall q :: RoleName(q) != s
    ensures r.Some? ==> RoleName(r.value) == s
  {
    if s == "student" then Some(Student)
    else if s == "school" then Some(School)
    else if s == "ngo" then Some(Ngo)
    else None
  }

  datatype Badge = Badge(id: string, name: string, description: string, icon: string, earnedAt: string)

  /** A user record; `role` is the role text as stored. */
  datatype User = User(
    id: string,
    name: string,
    email: string,
    role: string,
    avatar: Option<string>,
    ecoPoints: Option<int>,
    badges: Option<seq<Badge>>,
    schoolId: Option<string>,
    ngoId: Option<string>)

  datatype Difficulty = Easy | Medium | Hard

  datatype ChallengeStatus = Available | InProgress | Completed

  /** The text of a challenge status, as compared against the status filter. */
  function StatusName(s: ChallengeStatus): string {
    match s
    case Available => "available"
    case InProgress => "in-progress"
    case Completed => "completed"
  }

  datatype Challenge = Challenge(
    id: string,
    title: string,
    description: string,
    points: int,
    difficulty: Difficulty,
    category: string,
    status: ChallengeStatus,
    completedAt: Option<string>,
    progress: Option<int>)

  /** `correctAnswer` is the index of the right option. */
  datatype QuizQuestion = QuizQuestion(
    id: string,
    question: string,
    options: seq<string>,
    correctAnswer: int,
    explanation: string)

  datatype Quiz = Quiz(
    id: string,
    title: string,
    description: string,
    questions: seq<QuizQuestion>,
    totalPoints: int,
    completedAt: Option<string>,
    score: Option<int>)
}
