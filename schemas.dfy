/** The two records handed from one pipeline stage to the next. Neither record
    constrains its fields: any strings and any integer make a value. */
module Schemas {

  /** The Profiler's output: the user's skills (comma-separated), the exact job
      title aimed for, and total years of experience. */
  datatype UserProfile = UserProfile(
    currentSkills: string,
    targetRole: string,
    yearsOfExperience: int)

  /** The Market Analyst's output: the mandatory skills found for the role,
      the one to three most important missing skills, and the salary range. */
  datatype MarketAnalysis = MarketAnalysis(
    requiredSkillsFound: string,
    criticalSkillGap: string,
    averageSalaryRange: string)
}
