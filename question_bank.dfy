/** The fixed mock-interview question bank of frontend/src/services/interviewService.js
    (lines 9-95): ten technical and ten behavioural questions for each of three
    roles, and the derived "mixed" lists. */
module QuestionBank {

  /** The roles, in the key order `Object.keys` visits them. */
  const Roles: seq<string> := ["Software Engineer", "Data Scientist", "Product Manager"]

  /** The role whose mixed list is used when a lookup finds nothing. */
  const FallbackRole: string := "Software Engineer"

  /** How many questions of each kind a mixed list takes. */
  const MixedPerKind: nat := 5

  const TechnicalSoftwareEngineer: seq<string> := [
      "Explain the difference between TCP and UDP protocols.",
      "What is the time complexity of binary search?",
      "Describe how RESTful APIs work.",
      "What are the principles of Object-Oriented Programming?",
      "Explain the concept of closures in JavaScript.",
      "What is the difference between SQL and NoSQL databases?",
      "Describe the MVC architecture pattern.",
      "What is a promise in JavaScript and how does it work?",
      "Explain the concept of microservices.",
      "What are the SOLID principles?"
    ]

  const TechnicalDataScientist: seq<string> := [
      "What is the difference between supervised and unsupervised learning?",
      "Explain the bias-variance tradeoff.",
      "What is cross-validation and why is it important?",
      "Describe the difference between L1 and L2 regularization.",
      "What is a confusion matrix?",
      "Explain principal component analysis (PCA).",
      "What is the difference between bagging and boosting?",
      "Describe how gradient descent works.",
      "What is overfitting and how can you prevent it?",
      "Explain the ROC curve and AUC metric."
    ]

  const TechnicalProductManager: seq<string> := [
      "How do you prioritize features in a product roadmap?",
      "What metrics would you use to measure product success?",
      "Describe your process for conducting user research.",
      "How do you handle conflicting stakeholder requirements?",
      "What is your approach to competitive analysis?",
      "How do you define and track KPIs?",
      "Describe a time when you had to make a data-driven decision.",
      "How do you balance technical debt with new features?",
      "What frameworks do you use for product strategy?",
      "How do you ensure alignment between engineering and business goals?"
    ]

  const BehavioralSoftwareEngineer: seq<string> := [
      "Tell me about a time when you faced a difficult technical challenge.",
      "Describe a situation where you had to work with a difficult team member.",
      "How do you handle tight deadlines?",
      "Tell me about a project you are most proud of.",
      "Describe a time when you made a mistake. How did you handle it?",
      "How do you stay updated with new technologies?",
      "Tell me about a time when you had to learn something new quickly.",
      "Describe your code review process.",
      "How do you handle disagreements about technical decisions?",
      "What motivates you as a software engineer?"
    ]

  const BehavioralDataScientist: seq<string> := [
      "Describe a complex data problem you solved.",
      "Tell me about a time when your analysis influenced a business decision.",
      "How do you communicate technical findings to non-technical stakeholders?",
      "Describe a time when you had to work with incomplete data.",
      "Tell me about a project where you collaborated with cross-functional teams.",
      "How do you ensure the ethical use of data?",
      "Describe a time when you had to pivot your analysis approach.",
      "How do you handle stakeholder expectations when results are unexpected?",
      "Tell me about your experience with A/B testing.",
      "What is your approach to continuous learning in data science?"
    ]

  const BehavioralProductManager: seq<string> := [
      "Tell me about a time when you launched a successful product.",
      "Describe a situation where you had to say no to a stakeholder.",
      "How do you handle conflicting priorities?",
      "Tell me about a product failure and what you learned.",
      "Describe your approach to user empathy.",
      "How do you build consensus among different teams?",
      "Tell me about a time when you used data to drive a decision.",
      "Describe your experience with agile methodologies.",
      "How do you handle ambiguity in product requirements?",
      "What is your leadership style?"
    ]

  function Technical(): map<string, seq<string>>
  {
    map[Roles[0] := TechnicalSoftwareEngineer, Roles[1] := TechnicalDataScientist, Roles[2] := TechnicalProductManager]
  }

  function Behavioral(): map<string, seq<string>>
  {
    map[Roles[0] := BehavioralSoftwareEngineer, Roles[1] := BehavioralDataScientist, Roles[2] := BehavioralProductManager]
  }

  /** Every role has ten questions of each kind. */
  lemma BankShape()
    ensures Technical().Keys == Behavioral().Keys == {Roles[0], Roles[1], Roles[2]}
    ensures forall role :: role in Technical() ==> |Technical()[role]| == 10 && |Behavioral()[role]| == 10
  {
  }

  /** The mixed list of a role: its first five technical questions, then its first five behavioural ones. */
  function Mixed(): (m: map<string, seq<string>>)
    ensures m.Keys == Technical().Keys
  {
    BankShape();
    map role | role in Technical().Keys :: Technical()[role][..MixedPerKind] + Behavioral()[role][..MixedPerKind]
  }

  /** A mixed list has ten questions, technical ones first. */
  lemma MixedLayout(role: string)
    requires role in Technical()
    ensures |Mixed()[role]| == 2 * MixedPerKind
    ensures Mixed()[role][..MixedPerKind] == Technical()[role][..MixedPerKind]
    ensures Mixed()[role][MixedPerKind..] == Behavioral()[role][..MixedPerKind]
  {
    BankShape();
  }

  /** The bank by interview type, then by role. */
  function Bank(): map<string, map<string, seq<string>>>
  {
    map["technical" := Technical(), "behavioral" := Behavioral(), "mixed" := Mixed()]
  }

  /** `questionBank[interviewType]?.[jobRole] || questionBank.mixed['Software Engineer']`. */
  function QuestionsFor(interviewType: string, jobRole: string): (q: seq<string>)
    ensures interviewType in Bank() && jobRole in Bank()[interviewType] ==> q == Bank()[interviewType][jobRole]
    ensures !(interviewType in Bank() && jobRole in Bank()[interviewType]) ==> q == Mixed()[FallbackRole]
    ensures |q| == 10
  {
    BankShape();
    if interviewType in Bank() && jobRole in Bank()[interviewType] then Bank()[interviewType][jobRole]
    else Mixed()[FallbackRole]
  }

  /** Any type or role outside the bank gets the Software Engineer mixed list, even when
      the type alone (say "technical") is known. */
  lemma UnknownLookupFallsBack(interviewType: string, jobRole: string)
    requires interviewType !in {"technical", "behavioral", "mixed"} || jobRole !in Roles
    ensures QuestionsFor(interviewType, jobRole) ==
            TechnicalSoftwareEngineer[..MixedPerKind] + BehavioralSoftwareEngineer[..MixedPerKind]
  {
    BankShape();
  }
}
