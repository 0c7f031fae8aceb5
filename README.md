# Smart Career Guidance Agent: the market-data lookup

The script `agent_orchestrator.py` wires three language-model agents (a
profiler, a market analyst and a strategy coach) into a sequential pipeline
through an external agent framework. The one piece of program logic in it is
the simulated "Google Search Market Data" tool, `google_search_market_data`.
Given a target role, it answers with one of three fixed market snapshots:

- the Data Analyst snapshot when the role contains `"Data Analyst"`;
- otherwise the Software Engineer snapshot when the role contains
  `"Software Engineer"`;
- otherwise a generic answer that says no specific data was found.

The tests are Python's `in` operator: case-sensitive substring containment.

This project models that tool and the two records the pipeline hands from
stage to stage.

- `strings.dfy` (module `Strings`) gives Python's `sub in s` twice. `Contains`
  is a left-to-right scan. `HasSubstring` is the reference meaning: some
  position holds an occurrence (`OccursAt`). Their equivalence is the
  contract of `Contains`. The module also has `Join`, which joins adjacent
  string fragments the way Python joins adjacent literals.
- `schemas.dfy` (module `Schemas`) has the records `UserProfile` and
  `MarketAnalysis` as plain datatypes. The source puts descriptions on their
  fields and no constraints, so every value of the field types is allowed.
  `years_of_experience` is a Python `int` and is modelled as an unbounded
  `int`.
- `market_data.dfy` (module `MarketData`) has the two role keys, the three
  snapshots and `Lookup`, plus the lemmas about them. Each snapshot is the join
  of its fragments. The fragments are split more finely than the source's
  literal lines, so each reported item (a skill, a salary range) is a fragment
  of its own. Joined, they give exactly the characters of the source's strings.

## Model

| member | source | states |
|---|---|---|
| Strings.Contains | agent_orchestrator.py:39 | the scan returns true exactly when `sub` occurs at some position of `s`, which is the meaning of Python's `in` (the empty string occurs everywhere) |
| Strings.OccursInContext | agent_orchestrator.py:39 | an occurrence of `sub` in `s` stays an occurrence, shifted by the prefix length, in any `p + s + q` |
| Strings.AbsentCharacter | agent_orchestrator.py:39 | matching is exact and case-sensitive: if a character of `sub` appears nowhere in `s`, then `sub` does not occur in `s` |
| Strings.JoinPart | agent_orchestrator.py:40-45 | every fragment occurs in the joined string, right after the fragments before it |
| Strings.HasSubstring | agent_orchestrator.py:39 | the meaning of Python's `sub in s`: some position of `s` holds `sub`; the empty string is in every string, and a string longer than `s` never is |
| Strings.Join | agent_orchestrator.py:40-51 | Python's joining of adjacent string literals: the joined string starts with its first fragment and is at least as long as each fragment |
| Schemas.UserProfile | agent_orchestrator.py:14-18 | the profile record: skills text, target role text and years of experience as an unbounded integer, with no constraint on any field |
| Schemas.MarketAnalysis | agent_orchestrator.py:20-24 | the analysis record: required skills, critical skill gap and salary range, three text fields with no constraint |
| MarketData.ConfiguredRole | agent_orchestrator.py:111 | the target role the script is run with, `"Junior Data Analyst"` |
| MarketData.DataAnalystSnapshot | agent_orchestrator.py:40-45 | the text returned for a Data Analyst role, character for character the source's joined literals |
| MarketData.SoftwareEngineerSnapshot | agent_orchestrator.py:47-51 | the text returned for a Software Engineer role, character for character the source's joined literals |
| MarketData.FallbackSnapshot | agent_orchestrator.py:53 | the text returned when neither key occurs, character for character the source's literal |
| MarketData.Lookup | agent_orchestrator.py:31-53 | total (no precondition, no error path); the answer is one of the three snapshots and starts with `"Market Data:"` |
| MarketData.SnapshotsTagged | agent_orchestrator.py:40-53 | each of the three snapshots starts with `"Market Data:"` |
| MarketData.SnapshotsDistinct | agent_orchestrator.py:40-53 | the three snapshots are pairwise different, so each answer identifies the branch that produced it |
| MarketData.LookupExactlyOne | agent_orchestrator.py:39-53 | for every role, exactly one of the three snapshots is the answer |
| MarketData.LookupDataAnalystIff | agent_orchestrator.py:39-45 | the answer is the Data Analyst snapshot if and only if the role contains `"Data Analyst"` |
| MarketData.LookupPrecedence | agent_orchestrator.py:39-46 | a role that contains both `"Data Analyst"` and `"Software Engineer"` gets the Data Analyst snapshot |
| MarketData.LookupSoftwareEngineerIff | agent_orchestrator.py:46-51 | the answer is the Software Engineer snapshot if and only if the role contains `"Software Engineer"` and does not contain `"Data Analyst"` |
| MarketData.LookupFallbackIff | agent_orchestrator.py:52-53 | the answer is the fallback if and only if the role contains neither key |
| MarketData.LookupDataAnalystInContext | agent_orchestrator.py:39-45 | any role of the form `before + "Data Analyst" + after` gets the Data Analyst snapshot |
| MarketData.LookupSoftwareEngineerInContext | agent_orchestrator.py:46-51 | any role of the form `before + "Software Engineer" + after` that does not contain `"Data Analyst"` gets the Software Engineer snapshot |
| MarketData.LookupLowerCaseFallsThrough | agent_orchestrator.py:39-53 | a role with no upper-case `D` and no upper-case `S` gets the fallback, because matching is case-sensitive |
| MarketData.LookupLowerCaseRole | agent_orchestrator.py:39-53 | `"junior data analyst"` gets the fallback, not the Data Analyst snapshot |
| MarketData.LookupConfiguredRole | agent_orchestrator.py:111 | the configured role `"Junior Data Analyst"` gets the Data Analyst snapshot |
| MarketData.DataAnalystSnapshotContents | agent_orchestrator.py:40-45 | the Data Analyst snapshot names Advanced SQL, Tableau and Python and the salary range $75,000 - $95,000 |
| MarketData.SoftwareEngineerSnapshotContents | agent_orchestrator.py:47-51 | the Software Engineer snapshot names Python/GoLang, Docker/Kubernetes and AWS/GCP and the salary range $120,000 - $160,000 |
| MarketData.FallbackSnapshotContents | agent_orchestrator.py:53 | the fallback says "No specific data found" and names communication, problem-solving and continuous learning |

Determinism needs no lemma. `Lookup` is a Dafny function, so equal roles
always get equal answers.

## Left out

- The `print` line the tool runs when called (agent_orchestrator.py:36) is console output, so it is not modelled.
- The `@tool` registration (agent_orchestrator.py:30) is not modelled. It belongs to the agent framework.
- The construction of agents, tasks and the crew, the Gemini client and `kickoff` (agent_orchestrator.py:58-166,173) are not modelled. They configure an external runtime, and a language model produces their behaviour.
- Skill-gap computation, the ordering of missing skills, the INVEST/HOLD verdict, the action plan and the matching against the knowledge base are not modelled. They exist only as prompt text the model is asked to follow (agent_orchestrator.py:76-78,95-100,128-157), and no code implements them.
- The two records have no validation. Non-negative years and a non-empty role are not checked by this code (agent_orchestrator.py:16-18), and any coercion belongs to the pydantic library, which is not part of this model.
- Environment loading (agent_orchestrator.py:10), the console report and the handling of API errors (agent_orchestrator.py:170-188) are I/O around the foreign API, so they are not modelled.
- Python strings are sequences of code points; the model uses Dafny's `char`, with no normalisation. A Dafny `char` is a Unicode scalar value and cannot be a surrogate, so a role holding a lone surrogate code point (which a Python `str` allows) cannot be represented. Both keys are ASCII, so this does not affect which branch the lookup takes.
- The tool's docstring (agent_orchestrator.py:32-35) promises the required hard skills and salary expectations. The code returns them only as prose inside one string, and the model keeps that single string; it does not split it into skills and salary.
