/** Records and enumerations shared by every component of the application
    (types.ts), plus the Option type used for the source's optional fields
    and nullable values. */
module Types {

  /** A value that may be missing: `null`, `undefined` or an absent field. */
  datatype Option<+T> = None | Some(value: T) {
    function GetOr(default: T): T {
      match this
      case Some(v) => v
      case None => default
    }
  }

  /** An opaque instant: the source's `Date`, never inspected by the core. */
  type Time = int

  /** The four hazard levels of an analysis (types.ts:2-7). */
  datatype RiskLevel = Low | Medium | High | Critical

  /** The string each enum member stands for at run time. */
  function RiskLevelText(level: RiskLevel): string {
    match level
    case Low => "Low"
    case Medium => "Medium"
    case High => "High"
    case Critical => "Critical"
  }

  /** Recognises the run-time string of a risk level; every other string is
      not a member of the enumeration. */
  function ParseRiskLevel(s: string): (r: Option<RiskLevel>)
    ensures r.Some? ==> RiskLevelText(r.value) == s
  {
    if s == "Low" then Some(Low)
    else if s == "Medium" then Some(Medium)
    else if s == "High" then Some(High)
    else if s == "Critical" then Some(Critical)
    else None
  }

  /** Printing a level and reading it back gives the level again, and a string
      is recognised exactly when it is the text of some level. */
  lemma RiskLevelRoundTrip(level: RiskLevel, s: string)
    ensures ParseRiskLevel(RiskLevelText(level)) == Some(level)
    ensures ParseRiskLevel(s).Some? <==> s in {"Low", "Medium", "High", "Critical"}
  {
  }

  /** The two account tiers (types.ts:9-12). */
  datatype UserRole = Student | CyberExpert

  /** A signed-in principal (types.ts:14-20); `avatar` is optional. */
  datatype User = User(id: string, name: string, email: string, role: UserRole, avatar: Option<string>)

  /** The one privilege test of the application: `currentUser?.role === UserRole.CYBER_EXPERT`. */
  predicate IsExpert(user: Option<User>) {
    user.Some? && user.value.role == CyberExpert
  }

  /** A scan verdict (types.ts:22-30). `riskLevel` is kept as the raw string and
      `riskScore` as an unbounded integer because the gateway hands on whatever
      the external model produced without checking either. */
  datatype AnalysisResult = AnalysisResult(
    isSafe: bool,
    riskScore: int,
    riskLevel: string,
    attackType: string,
    reasoning: seq<string>,
    suspiciousPatterns: seq<string>,
    recommendations: seq<string>)

  /** Who wrote a chat turn: 'user' or 'model' (types.ts:59). */
  datatype ChatRole = UserTurn | ModelTurn

  /** A cited web source attached to an assistant answer (types.ts:61). */
  datatype Link = Link(title: string, uri: string)

  /** One turn of the chat transcript (types.ts:58-63). */
  datatype ChatMessage = ChatMessage(role: ChatRole, content: string, links: Option<seq<Link>>, timestamp: Time)

  /** Learning and library state (types.ts:65-70). */
  datatype UserProgress = UserProgress(
    userId: string,
    completedTopicIds: seq<string>,
    downloadedResourceIds: seq<string>,
    lastAccessed: Time)
}
