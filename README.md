# Satyrn core, modelled in Dafny

Satyrn answers analytic questions over a relational database that a *ring*
describes: the ring lists the entities, their attributes, the tables and
columns behind them, and the joins and relationships between them. An
analysis is written as an SQR plan. This is a small Lisp-like program of
numbered steps such as `(retrieve_attribute |2| amount)`, `(average |3|)`
and `(return |4| ...)`.

The core compiles such a plan into nested relational queries:

- parse the step texts;
- build the dependency graph of the steps;
- split it into subplans at nested `return` steps;
- walk each subplan in topological order, filling a `QueryArguments`
  record for the subquery: the froms, select list, group-bys,
  filter/having, sort and limit, with canonical column names such as
  `E//a`, `alias_0//col` and `average(E//a)`;
- join the tables the query needs, one at a time.

Around the compiler sit:

- the operation ontology, a fixed registry of operation names with
  categories, arities, argument types and templates;
- schema helpers over the ring objects;
- plan composition and slot filling for generated documents;
- the English renderings of plans as questions and statements.

This project models that core as Dafny datatypes, functions, classes and
methods, and proves properties of the model.

Conventions:

- Python dictionaries, whose insertion order the code relies on, are
  sequences of (key, value) pairs.
- Python exceptions are values of a `Result` type, so error paths are part
  of each contract.
- The database, SQLAlchemy, networkx and the file system are parameters or
  are left out.

The modules and what they model:

| dafny file | models |
|---|---|
| `wrappers.dfy`, `dicts.dfy`, `chars.dfy`, `text.dfy` | Option/Result and the Python exception kinds; ordered dictionaries; characters and string helpers |
| `api_utils.dfy` | `core/api/utils.py` |
| `arg_types.dfy` | `core/Operations/ArgType.py` |
| `op_names.dfy`, `operations.dfy` | the operation classes under `core/Operations/` and their descriptors |
| `ontology.dfy` | `core/Analysis/OperationOntology.py` |
| `steps.dfy` | `core/Analysis/AnalysisStep.py`, `core/Analysis/AnalysisPlan.py` |
| `step_lexer.dfy`, `plan_parser.dfy`, `plan_split.dfy`, `subplans.dfy` | `core/Planning/AnalysisPlanParser.py` |
| `sqr_field.dfy` | `core/Analysis/SQRField.py`, and `_get_op_column_name` |
| `terms.dfy`, `query_args.dfy` | `core/Analysis/QueryArguments.py` |
| `query_builder.dfy`, `build_query.dfy`, `query_builder_facts.dfy` | `build_query_arguments_from_sqr_plan` and its helpers in `core/Analysis/QueryBuilderSQR.py` |
| `joins.dfy` | the join handling of `core/Analysis/QueryBuilderSQR.py` |
| `json.dfy` | the Python values a ring configuration is loaded as: None, booleans, numbers, strings, lists, dictionaries; truthiness, `dict.get` and `str()` |
| `string_order.dfy` | Python's string comparison and `sorted(..., reverse=True)` |
| `analysis_engine.dfy` | `core/Analysis/AnalysisEngine.py` |
| `database_interface.dfy` | the field lookups of `core/DatabaseInterface.py` |
| `planning_utils.dfy` | `core/Planning/utils.py` |
| `ring_object.dfy` | `core/RingObjects/RingObject.py` |
| `ring_join.dfy`, `ring_relationship.dfy`, `ring_attribute.dfy`, `ring_entity.dfy`, `ring_data_source.dfy` | the ring objects of the same names under `core/RingObjects/` |
| `ring.dfy` | `core/RingObjects/Ring.py` |
| `ring_compiler.dfy` | `core/RingCompiler.py`: base types, derived datetime columns, the relationship list |
| `ring_augmentor.dfy` | `core/RingAugmentor.py` |
| `template_slots.dfy` | the slot syntax shared by `core/Planning/SQRComposer.py` and `core/Document/Blueprints/SQRPlanFiller.py` |
| `sqr_composer.dfy` | `core/Planning/SQRComposer.py` |
| `sqr_plan_filler.dfy` | `core/Document/Blueprints/SQRPlanFiller.py` |
| `blueprint_utils.dfy`, `blueprints.dfy` | `core/Document/Blueprints/utils.py` and what the three blueprints share |
| `ranking_blueprint.dfy`, `benchmark_blueprint.dfy`, `time_over_time_blueprint.dfy` | `RankingBlueprint.py`, `ComparativeBenchmarkBlueprint.py` and `TimeOverTimeBlueprint.py` under `core/Document/Blueprints/` |
| `placeholders.dfy` | the `{i}` placeholders of operation templates and `str.replace` on them |
| `step_expressor.dfy` | `core/Planning/StepExpressor.py` |
| `question_generator.dfy` | `core/Planning/QuestionGenerator.py` |
| `statement_generator.dfy` | `core/Planning/StatementGenerator.py` |
| `template_statement.dfy` | `core/Planning/StatementGeneratorTemplateBased.py` |

## Model

| member | source | states |
|---|---|---|
| ApiUtils.ParseRefString | core/api/utils.py:20-58 | the pieces and flags are equally many; each piece is non-empty; a piece is flagged exactly when it starts with `$`; a `}` only ends a piece and a `$` only starts one; neighbouring pieces are cut after a `}` or before a `$`; the pieces concatenate back to the input, so by `SplitUnique` they are the only such split |
| ApiUtils.IsArgReference | core/api/utils.py:143-151 | true exactly when some substring is a pipe, one or more word characters, then a pipe |
| ApiUtils.RefFrom | core/api/utils.py:151 | the search from position i succeeds exactly when a match starts at or after i |
| ApiUtils.DateDenomination | core/api/utils.py:181-182 | a full match exists exactly when the string splits into a non-empty run of word characters and one of the six date suffixes; the split found is that one |
| ApiUtils.DateDenominationOf | core/api/utils.py:181-182 | a word followed by any one of the six suffixes is recognised and split back into the word and the suffix |
| ApiUtils.MirrorRel | core/api/utils.py:60-67 | defined exactly on o2o, m2m, o2m and m2o, with a KeyError otherwise; the result is again one of the four |
| ApiUtils.MirrorInvolutive | core/api/utils.py:60-67 | mirroring twice gives the type back |
| ApiUtils.MirrorIsReverse | core/api/utils.py:60-67 | on the four types the mirror is the reversed string |
| ApiUtils.RelMath | core/api/utils.py:69-86 | o2o is the identity on either side; m2m absorbs; o2m·m2o = m2m, o2m·o2m = o2m, m2o·m2o = m2o, m2o·o2m = "NA"; None when no branch applies |
| ApiUtils.RelMathMirror | core/api/utils.py:69-86 | composing two relationships in the other direction gives the mirror of the forward composition |
| ApiUtils.WalkRelPath | core/api/utils.py:88-109 | the loop computes the fold `Walk` of rel_math over the path, mirroring bidirectional relationships crossed backwards |
| ApiUtils.WalkSingleForward | core/api/utils.py:88-109 | a path of one forward relationship has that relationship's type |
| ApiUtils.WalkSingleBackward | core/api/utils.py:88-109 | a bidirectional relationship crossed backwards gives the mirror of its type |
| ApiUtils.WalkBrokenStart | core/api/utils.py:93-102 | a path whose first relationship does not touch the start entity gives "NA" |
| ApiUtils.DropSubqueryNames | core/api/utils.py:130-134 | what remains is a suffix of the pieces; every dropped piece is a subquery name; the first remaining piece is not |
| ApiUtils.EntityFromSubqueryName | core/api/utils.py:112-141 | the loops compute `SubqueryNameSpec`: {} for a name ending in `)`, entity and field from the first two pieces left, key := val for each further piece |
| ApiUtils.SubqueryNameOfEntityColumn | core/api/utils.py:112-141 | decoding the column name `E//a` of an entity field gives entity E and field a |
| ArgTypes.Value | core/Operations/ArgType.py:16-43 | every member's value lies in 1..22 and is none of the unused 16, 17, 20 |
| ArgTypes.ValueInjective | core/Operations/ArgType.py:16-43 | distinct members have distinct values |
| ArgTypes.FromStr | core/Operations/ArgType.py:45-81 | succeeds exactly when the lower-cased label is the lower-case name of one of the fourteen parsed members, and returns that member; otherwise NotImplementedError |
| ArgTypes.FromStrRoundTrip | core/Operations/ArgType.py:47-79 | any spelling of a parsed member's name, in any case, gives that member back |
| ArgTypes.FromStrRejects | core/Operations/ArgType.py:80-81 | filter, sort, limit, rownum and attributecollection raise NotImplementedError in every spelling |
| ArgTypes.LowerNameInjective | core/Operations/ArgType.py:16-43 | distinct members have distinct lower-case names |
| ArgTypes.AllMembers | core/Operations/ArgType.py:82-84 | get_all lists sixteen distinct members and omits exactly Sort, Limit and RowNum |
| OpNames.DecodeName | core/Analysis/OperationOntology.py:57-130 | every registered name decodes back to its class, so the name identifies the class |
| OpNames.NameOfInjective | core/Analysis/OperationOntology.py:57-130 | no two classes register under the same name, so no table key is shadowed |
| Operations.DescriptorShape | core/Operations/Aggregation/StdDev.py:23-33 | exactly the sixteen described classes have a descriptor; each registers under its own class name; each yields exactly one value |
| Operations.AggregateArity | core/Operations/Aggregation/StdDev.py:23-33 | standard deviation, count-unique and min accept one value and an optional Group; only min accepts a Datetime; the template mentions `{target}` and no positional slot |
| Operations.SingleGroupArity | core/Operations/Math/Add.py:24-33 | abs, sqrt, rownum and retrieve_entity take exactly one operand; percent_change and lessthan_eq take two; add takes two or more; and, groupby and collect take one or more |
| Operations.TwoGroupArity | core/Operations/Math/Percentage.py:23-33 | percentage takes exactly one quantity in each of its two groups; sort takes one or more attributes and exactly one direction |
| Operations.ReturnArity | core/Operations/Standard/Return.py:18-28 | return takes exactly one collect, at most one filter and at most one sort |
| Operations.PositionalTemplates | core/Operations/Math/Abs.py:26-35 | the templates of abs, sqrt and rownum use slot `{0}`; those of percent_change, add, percentage and lessthan_eq use `{0}` and `{1}`; none uses `{target}` |
| Operations.RenderAdd | core/Operations/Math/Add.py:32 | the add template renders as "{0} plus {1}" |
| Operations.RenderStdDev | core/Operations/Aggregation/StdDev.py:32 | the standard-deviation template renders as "standard deviation of {target}" |
| Ontology.BooleanTable | core/Analysis/OperationOntology.py:84-86 | the boolean table has nine entries, and they are exactly the boolean classes |
| Ontology.ArithmeticTable | core/Analysis/OperationOntology.py:88-91 | the arithmetic table has nine entries, all of them arithmetic classes |
| Ontology.AnalysisTable | core/Analysis/OperationOntology.py:123-130 | the analysis table has eleven entries, all of them aggregate classes |
| Ontology.SmallTables | core/Analysis/OperationOntology.py:70-121 | the retrieval table holds the retrieval classes; the groupby, collect, return, sort, limit and rownum tables hold one class each |
| Ontology.Lookup | core/Analysis/OperationOntology.py:176-199 | a class that is found is in the table and registers under the name; nothing is found exactly when no class of the table has that name |
| Ontology.ReturnIsReturn | core/Analysis/OperationOntology.py:148-150 | `is_return_operation` holds exactly for "return" |
| Ontology.IsOperationUnique | core/Analysis/OperationOntology.py:136-174 | a name is a key of at most one table |
| Ontology.ResolveOperation | core/Analysis/OperationOntology.py:176-199 | the class found registers under the name; an unknown name raises ValueError with the source's message |
| Ontology.ResolveCategory | core/Analysis/OperationOntology.py:176-199 | a name in a table resolves to a class of that table, and no other table has the name, so the order of the checks does not matter |
| Ontology.ResolveFinds | core/Analysis/OperationOntology.py:176-199 | a class's own name resolves to that class |
| Ontology.ResolveIffSomeIs | core/Analysis/OperationOntology.py:136-199 | resolution succeeds exactly when one of the ten `is_*` predicates holds |
| Steps.GetLeaves | core/Analysis/AnalysisPlan.py:53-59 | the leaves are exactly the nodes with no outgoing edge, and the first leaf is the first such node |
| Steps.Leaves | core/Planning/AnalysisPlanParser.py:109-118 | `get_leaves` of the parser: exactly the given nodes with no outgoing edge, the first of them first |
| Steps.ToJson | core/Analysis/AnalysisPlan.py:50-51 | the JSON form has the plan's keys in the plan's order |
| Steps.ToJsonGet | core/Analysis/AnalysisPlan.py:50-51 | each key of the JSON form maps to the repr of the step it names in the plan |
| Steps.ToJsonDistinct | core/Analysis/AnalysisPlan.py:50-51 | the JSON form of a dictionary has no repeated key |
| StepLexer.RemoveParens | core/Planning/AnalysisPlanParser.py:81 | the result has no parenthesis and only characters of the input |
| StepLexer.RemoveParensConcat | core/Planning/AnalysisPlanParser.py:81 | deleting the parentheses distributes over concatenation |
| StepLexer.SplitFromText | core/Planning/AnalysisPlanParser.py:81 | every character of every word comes from the text |
| StepLexer.SplitWords | core/Planning/AnalysisPlanParser.py:81 | plain words joined by single spaces split back into those words |
| StepLexer.QuotedStaysWhole | core/Planning/AnalysisPlanParser.py:81 | a double-quoted part with spaces stays one word, without its quotes |
| PlanParser.ParseStep | core/Planning/AnalysisPlanParser.py:80-89 | a parsed step keeps its reference; its operation and arguments are the words of the text, in order; a lexer error is passed on; an empty text raises IndexError |
| PlanParser.ParsedParenFree | core/Planning/AnalysisPlanParser.py:81 | no word of a parsed step holds a parenthesis, even a quoted one |
| PlanParser.CreateAnalysisSteps | core/Planning/AnalysisPlanParser.py:69-91 | succeeds exactly when every text parses; step i is text i parsed under its key; the result is keyed by the steps' references; an error is the error of one of the texts |
| PlanParser.ParseRepr | core/Planning/AnalysisPlanParser.py:80-89 | the repr of a step of plain words parses back into that step |
| PlanParser.StepEqPlain | core/Analysis/AnalysisStep.py:30-31 | for steps of plain words, `__eq__` is equality of the operation and the arguments |
| PlanParser.ParentRefs | core/Planning/AnalysisPlanParser.py:165 | the parent references are exactly the reference arguments, and only the first one for `retrieve_attribute` |
| PlanParser.RetrieveAttributeParents | core/Planning/AnalysisPlanParser.py:165 | a `retrieve_attribute` step has at most its first argument as a parent |
| PlanParser.Fetch | core/Planning/AnalysisPlanParser.py:168 | succeeds exactly when every reference is a key; finds the step each reference names; otherwise raises KeyError on a missing reference |
| PlanParser.GetParents | core/Planning/AnalysisPlanParser.py:160-168 | succeeds exactly when every parent reference is a key of the plan |
| PlanParser.GetParentsFound | core/Planning/AnalysisPlanParser.py:160-168 | the parents are the steps the parent references name, in order |
| PlanParser.PlanEdgesAre | core/Planning/AnalysisPlanParser.py:103-105 | the graph has an edge u -> v exactly when v is a step and u is the reference of one of its parents |
| PlanParser.CreatePlanGraph | core/Planning/AnalysisPlanParser.py:93-107 | succeeds exactly when every step's parents can be fetched; the edges are those above; the step keys come first among the nodes, in plan order; an error is one step's KeyError |
| PlanSplit.AliasNames | core/Planning/AnalysisPlanParser.py:170-180 | every subplan key is an alias, and different indices give different keys |
| PlanSplit.SplitOnReturns | core/Planning/AnalysisPlanParser.py:137-158 | a start that is not a return step raises Exception; otherwise the subplans already stored are kept and valid subplans are appended; the last one is rooted at the start; every return step a subplan depends on has a subplan of its own; a KeyError names a missing parent and happens only when some step's parents are missing; a RecursionError happens only when a return step at or above the start lies on a cycle; with all parents present and no cycle a return start always succeeds |
| PlanSubplans.KeptFromInput | core/Planning/AnalysisPlanParser.py:128-132 | deduplication keeps items of the input only, unrenamed and unaltered |
| PlanSubplans.KeptDistinct | core/Planning/AnalysisPlanParser.py:128-132 | no kept subplan equals one kept before it |
| PlanSubplans.KeptCovers | core/Planning/AnalysisPlanParser.py:128-132 | every input subplan is kept, or equals one that is kept |
| PlanSubplans.KeptIff | core/Planning/AnalysisPlanParser.py:128-132 | a subplan is kept exactly when no subplan kept before it equals it |
| PlanSubplans.Dedupe | core/Planning/AnalysisPlanParser.py:128-132 | the loop computes the first-occurrence deduplication |
| PlanSubplans.DetermineSubplans | core/Planning/AnalysisPlanParser.py:120-135 | no leaf raises IndexError; a leaf that is not a key raises KeyError; on success the first leaf is a return step and is represented, and the subplans are valid, alias-keyed, pairwise unequal and closed under dependencies; a RecursionError happens only when a return step at or above the first leaf lies on a cycle; a return leaf in a plan with all parents present and no cycle always succeeds |
| PlanSubplans.ParseFromAnalysisSteps | core/Planning/AnalysisPlanParser.py:43-54 | the plan keeps its steps; its graph is the parent graph; its subplans are those above; an unfetchable parent is an error |
| PlanSubplans.Parse | core/Planning/AnalysisPlanParser.py:31-41 | the steps are the parsed texts under their keys; the nodes are the keys; the edges are the parent edges; the subplans are valid; a text that does not parse is an error |
| PlanSubplans.ParsePlanSnippet | core/Planning/AnalysisPlanParser.py:56-67 | as `parse`, but with no subplans, and every step's parents then exist |
| SqrFields.OperationKindsExclusive | core/Analysis/SQRField.py:36-42 | `is_analysis_operation` and `is_arithmetic_operation` hold only for operation records, and never both for one field |
| SqrFields.ColumnName | core/Analysis/SQRField.py:27-34 | a record with an empty override, or an entity field with an empty entity, has no column name (the last branch reaches an attribute the value lacks); an entity field is named `E//a` |
| SqrFields.EntityIsAnchor | core/Analysis/SQRField.py:44-51 | `satyrn_entity` names an entity exactly when the chain of parents and first arguments ends at a named entity through derived records, and that entity is the one at the end |
| SqrFields.AttributeIsAnchor | core/Analysis/SQRField.py:53-62 | likewise for `satyrn_attribute`, which gives the attribute at the end of the chain |
| SqrFields.EntityWithAttribute | core/Analysis/SQRField.py:44-62 | a field has an entity exactly when it has an attribute, and both come from one entity field on the chain |
| SqrFields.CountOnChain | core/Analysis/SQRField.py:64-74 | `has_count_operation` is true exactly when a count or count_unique record lies on the chain, and false exactly when the chain ends at an entity field with none |
| SqrFields.OperandNames | core/Analysis/QueryBuilderSQR.py:307 | the names are the arguments' names, in order; they fail exactly when one argument has no name |
| SqrFields.OpColumnNameShape | core/Analysis/QueryBuilderSQR.py:301-309 | a record's name starts with its kind and `(` and ends with `)`; it fails exactly when an argument has no name |
| SqrFields.GetOneKeepsName | core/Analysis/QueryBuilderSQR.py:306 | `get_one` takes over its first argument's name |
| SqrFields.OpOverAttribute | core/Analysis/QueryBuilderSQR.py:301-309 | an operation over one entity attribute is named `kind(E//a)` |
| SqrFields.EntityColumnDecodes | core/Analysis/SQRField.py:31-32 | an entity attribute's column name decodes to its entity and attribute |
| SqrFields.WrappedColumnDecodes | core/Analysis/SQRField.py:33-34 | a parent column taken over by another subplan is prefixed with the parent's alias and still decodes to the same entity and attribute |
| SqrFields.AliasPrefixDropped | core/api/utils.py:130-134 | a leading subquery alias does not change what a column name decodes to |
| QueryBuilder.Operands | core/Analysis/QueryBuilderSQR.py:83-87 | each argument with a field becomes that field; any other argument stays a string |
| QueryBuilderFacts.ContainingShape | core/Analysis/QueryBuilderSQR.py:172 | the list of holders is empty exactly when no subplan holds the step, has two or more entries exactly when two subplans do, and starts with the alias of a holder |
| QueryBuilderFacts.ParentSubplanCases | core/Analysis/QueryBuilderSQR.py:166-175 | an unknown current alias raises KeyError; a step of the current subplan gives None; two holders raise "Ambiguous parent plan"; no holder gives None; otherwise the one holder is the answer |
| QueryBuilderFacts.ParentIsOther | core/Analysis/QueryBuilderSQR.py:166-175 | in a dictionary the parent found is never the current subplan |
| QueryBuilderFacts.ConnectiveContains | core/Analysis/QueryBuilderSQR.py:159-161 | an and/or/not condition whose operands can all be checked holds an aggregate exactly when one of its operands does |
| QueryBuilderFacts.OtherOperandIgnored | core/Analysis/QueryBuilderSQR.py:162-164 | in any other condition an operand that is not an analysis record never changes the answer |
| QueryBuilderFacts.WrappedNeverCounts | core/Analysis/QueryBuilderSQR.py:164 | a wrapped parent column never counts as an aggregate, whatever it wraps |
| QueryBuilderFacts.BuildConsistent | core/Analysis/QueryBuilderSQR.py:31-154 | every record stores each field in `sqrfields` under its own column name; every selected, grouped and sorted name has its field there; an aggregate condition goes to `having` and any other to `filter` |
| QueryBuilderFacts.StepConsistent | core/Analysis/QueryBuilderSQR.py:59-152 | every step keeps the record consistent in that sense |
| QueryBuilderFacts.GroupbyNamesOk | core/Analysis/QueryBuilderSQR.py:103-108 | the groupby loop fails exactly when an argument has no field or no name |
| QueryBuilderFacts.GroupbyNames | core/Analysis/QueryBuilderSQR.py:103-108 | the groupby loop appends the arguments' column names to `group_bys`, in order, and changes nothing else but `sqrfields` |
| QueryBuilderFacts.SelectNamesOk | core/Analysis/QueryBuilderSQR.py:125-130 | the select loop fails exactly when an argument of the collect step has no field or no name |
| QueryBuilderFacts.SelectNames | core/Analysis/QueryBuilderSQR.py:125-130 | the select loop appends the collect step's column names to `select`, in order, and changes nothing else but `sqrfields` |
| QueryBuilderFacts.SortPairsOk | core/Analysis/QueryBuilderSQR.py:141-146 | the sort loop fails exactly when an attribute position has no field or no name |
| QueryBuilderFacts.SortPairs | core/Analysis/QueryBuilderSQR.py:141-146 | the sort loop appends one (name, direction) pair per argument pair, in order, dropping an odd last argument, and changes nothing else but `sqrfields` |
| QueryBuilderFacts.AttributeCases | core/Analysis/QueryBuilderSQR.py:64-77 | an attribute step stores one field under its reference and changes only the froms; over a parent's return step the field wraps the parent's column and the parent is added to the froms at most once; otherwise it is the attribute of the entity retrieved by the first argument, and the froms stay |
| QueryBuilderFacts.BranchByCategory | core/Analysis/QueryBuilderSQR.py:60-152 | every registered operation takes its table's branch; an unknown name is unhandled (ValueError); the "Unhandled aggregation operation" branch is never reached |
| QueryBuilderFacts.BranchOfTable | core/Analysis/QueryBuilderSQR.py:60-152 | a name in exactly one table takes that table's branch |
| QueryBuilderFacts.AnalysisOperandsFilter | core/Analysis/QueryBuilderSQR.py:112-115 | the operands are collected exactly when every argument is a step of the subplan and every non-groupby argument has a field; they are then the fields of the non-groupby arguments |
| QueryBuilderFacts.Local | core/Analysis/QueryBuilderSQR.py:53-54 | the references of the order that are steps of the subplan, in order |
| QueryBuilderFacts.SubplanLocal | core/Analysis/QueryBuilderSQR.py:53-54 | references of other subplans in the global order are skipped: only the subplan's own steps, in order, matter |
| QueryBuilderFacts.BuildKeys | core/Analysis/QueryBuilderSQR.py:41-50 | the records are keyed by the subplans' aliases, in the subplans' order |
| QueryBuilderFacts.BuildOwned | core/Analysis/QueryBuilderSQR.py:31-154 | a subplan's record only names fields of that subplan; another subplan's column enters it wrapped |
| BuildQuery.Groupby | core/Analysis/QueryBuilderSQR.py:104-108 | the loop leaves the record that `GroupbySpec` describes, or the error it raises |
| BuildQuery.Return | core/Analysis/QueryBuilderSQR.py:124-150 | the return branch leaves the record that `ReturnSpec` describes |
| BuildQuery.ApplyStep | core/Analysis/QueryBuilderSQR.py:59-152 | one step leaves the record and fields that `StepSpec` describes |
| BuildQuery.Subplan | core/Analysis/QueryBuilderSQR.py:53-152 | the loop over the global order leaves the record and fields that `SubplanSpec` describes |
| BuildQuery.BuildQueryArguments | core/Analysis/QueryBuilderSQR.py:31-154 | succeeds exactly when `BuildSpec` does; the records are those `BuildSpec` computes, one new object per subplan; an error is the error `BuildSpec` names |
| Joins.JoinByName | core/RingObjects/Ring.py:292-301 | finds the first join with that name; raises IndexError exactly when none has it |
| Joins.JoinList | core/Analysis/QueryBuilderSQR.py:241 | each pending name is looked up in turn; any missing name raises IndexError |
| Joins.AddJoinCases | core/Analysis/QueryBuilderSQR.py:258-299 | two joined endpoints leave the query alone; a missing model is an error only when a table is to be added; a table is reported exactly when one clause is added; the table is a new endpoint, `to` when that is new; the attribute is `reverse_`-prefixed exactly when `from_` is added; the clause connects the two tables |
| Joins.FirstEligible | core/Analysis/QueryBuilderSQR.py:244-249 | the index of the first pending join touching a joined table; IndexError exactly when none does |
| Joins.FindEligible | core/Analysis/QueryBuilderSQR.py:243-249 | the scanning loop finds that index |
| Joins.Remove | core/Analysis/QueryBuilderSQR.py:246 | popping removes one occurrence of that join |
| Joins.AddJoinsToQuery | core/Analysis/QueryBuilderSQR.py:225-256 | a missing join name raises IndexError; otherwise the query and joined tables are those of the loop specification; nothing else of the record changes |
| Joins.JoinsEachOnce | core/Analysis/QueryBuilderSQR.py:241-256 | every pending join is applied exactly once: the picks are a permutation of the list |
| Joins.JoinsTouching | core/Analysis/QueryBuilderSQR.py:244-249 | each join is picked while one of its tables is joined; the first pick starts from the initial tables; the joined tables only grow from pick to pick |
| Joins.JoinsGrow | core/Analysis/QueryBuilderSQR.py:253-255 | the tables joined at every pick lie between the initial and the final tables |
| Joins.JoinsEndpoints | core/Analysis/QueryBuilderSQR.py:252-255 | every table added is an endpoint of a pending join |
| Joins.JoinsAppend | core/Analysis/QueryBuilderSQR.py:252 | the loop only appends to the query, at most one clause per join |
| Joins.JoinsStuck | core/Analysis/QueryBuilderSQR.py:244-249 | when no pending join touches a joined table the loop raises IndexError; a query with no table joins nothing |
| Joins.EntityFroms | core/Analysis/QueryBuilderSQR.py:221 | the froms that are ring entities, in order |
| Joins.PairJoinsIff | core/Analysis/QueryBuilderSQR.py:221-222 | a join is collected exactly when it lies between the entities at two positions i < j, as `combinations` pairs them |
| Joins.AddPairJoins | core/Analysis/QueryBuilderSQR.py:221-222 | `joins_todo` grows by exactly the joins between all pairs of entity froms, and nothing else changes |
| AnalysisEngines.StrLeTotal | core/Analysis/AnalysisEngine.py:91 | Python's string order, which `max` uses, relates any two strings |
| AnalysisEngines.StrLeTrans | core/Analysis/AnalysisEngine.py:91 | Python's string order is transitive |
| AnalysisEngines.StrLeAntisymmetric | core/Analysis/AnalysisEngine.py:91 | two strings each no greater than the other are equal |
| AnalysisEngines.AfterUnderscore | core/Analysis/AnalysisEngine.py:91 | `partition('_')[2]` is never longer than the key |
| AnalysisEngines.AfterPrefix | core/Analysis/AnalysisEngine.py:91-92 | the part after the underscore of `alias_x` is `x` |
| AnalysisEngines.MaxString | core/Analysis/AnalysisEngine.py:91 | `max` fails with ValueError exactly on an empty sequence |
| AnalysisEngines.MaxFromIsMax | core/Analysis/AnalysisEngine.py:91 | the running maximum ends on one of the items and no item is greater |
| AnalysisEngines.MaxStringIsMax | core/Analysis/AnalysisEngine.py:91 | the maximum is one of the strings and every string is no greater in Python's order |
| AnalysisEngines.Suffixes | core/Analysis/AnalysisEngine.py:91 | one suffix per key, in order, each the part after its first underscore |
| AnalysisEngines.OutermostAliasAsWritten | core/Analysis/AnalysisEngine.py:91-92 | as written: an outermost alias exists exactly when there is a subplan; it is `alias_` plus the string-greatest suffix |
| AnalysisEngines.StringMaxMissesAlias10 | core/Analysis/AnalysisEngine.py:49 | as written, of `alias_9` and `alias_10` the string maximum picks `alias_9` |
| AnalysisEngines.DigitsValueOfNat | core/Analysis/AnalysisEngine.py:92 | the digits `str(n)` prints read back as `n` |
| AnalysisEngines.MaxNumberFromIsMax | core/Analysis/AnalysisEngine.py:91 | the corrected running maximum ends on a numbered key whose number no other key exceeds |
| AnalysisEngines.OutermostAliasIsGreatest | core/Analysis/AnalysisEngine.py:91-92 | the corrected outermost alias is one of the keys, every key carries a number, and none has a larger number |
| AnalysisEngines.AliasNumbered | core/Analysis/AnalysisEngine.py:92 | `alias_n` carries the alias number `n` |
| AnalysisEngines.MaxNumberStep | core/Analysis/AnalysisEngine.py:91 | one step of the corrected maximum keeps the larger number, the earlier key on a tie |
| AnalysisEngines.TwoAliases | core/Analysis/AnalysisEngine.py:49 | of two numbered aliases the corrected choice is the larger number: `alias_10` over `alias_9` |
| AnalysisEngines.OutermostOfNumbered | core/Analysis/AnalysisEngine.py:91-92 | for the aliases `alias_0` … `alias_n` the corrected choice is `alias_n`, the last subplan |
| AnalysisEngines.NumberedMax | core/Analysis/AnalysisEngine.py:91 | over keys numbered by their positions, the corrected maximum from position j is the last key |
| AnalysisEngines.Subqueries | core/Analysis/AnalysisEngine.py:66 | a from is in the subquery map exactly when it is one of the froms and already built, and it maps to that query |
| AnalysisEngines.BuildQueriesOrder | core/Analysis/AnalysisEngine.py:65-67 | the loop builds one query per subplan in key order, each from its record and the earlier queries its froms name |
| AnalysisEngines.ComplexQueryOrder | core/Analysis/AnalysisEngine.py:59-69 | the k-th subplan sees exactly the earlier subplans named in its froms; the answer is the last subplan's query; no subplans is an error |
| AnalysisEngines.ComplexQueryLoop | core/Analysis/AnalysisEngine.py:59-69 | the loop over the subplans computes `ComplexQuery` |
| AnalysisEngines.FirstNamed | core/Analysis/AnalysisEngine.py:71-76 | succeeds exactly when some field has the name, giving the first such field; StopIteration otherwise |
| AnalysisEngines.FieldsNamedMeaning | core/Analysis/AnalysisEngine.py:74-80 | every name maps, in order, to the first field carrying it; one missing name fails the list |
| AnalysisEngines.SortKey | core/Analysis/AnalysisEngine.py:237-238 | the key orders by the field, descending exactly when the direction is "desc" |
| AnalysisEngines.SortKeysMeaning | core/Analysis/AnalysisEngine.py:82-84 | one key per sort request, in order, on the first field of its name, descending exactly for "desc" |
| AnalysisEngines.HasIdentifierType | core/Analysis/AnalysisEngine.py:148 | TypeError exactly when the attribute has no types; otherwise whether Identifier is among them |
| AnalysisEngines.FieldUnitsCases | core/Analysis/AnalysisEngine.py:128-156 | with the date suffix stripped: an unknown attribute gives the entity's nicename; declared units win; then the entity's nicename for a count over an identifier; then the attribute's nicename when `base_unit` is off; else no units |
| AnalysisEngines.DateSuffixedUnits | core/Analysis/AnalysisEngine.py:134-139 | an attribute with a date suffix has the units of its base attribute |
| AnalysisEngines.UnitStrings | core/Analysis/AnalysisEngine.py:101 | succeeds exactly when every unit is a string, and lists them in order |
| AnalysisEngines.UnitsFromMeaning | core/Analysis/AnalysisEngine.py:93-101 | one units entry per select column, in order, each the column's own units |
| AnalysisEngines.NoAttributeNoUnits | core/Analysis/AnalysisEngine.py:128-129 | a column without an attribute has the units `["", ""]` |
| AnalysisEngines.GetUnits | core/Analysis/AnalysisEngine.py:86-103 | the loop computes `Units`, read from the subplan the corrected outermost alias names |
| AnalysisEngines.SingleRingAnalysisShape | core/Analysis/AnalysisEngine.py:36-57 | the answer counts the rows and holds them; its field names are the outermost subplan's select list; one units entry per field name (outermost alias as corrected) |
| ApiUtils.SplitUnique | core/api/utils.py:20-58 | two splits of one string into good pieces cut at the marks are the same split, so the pieces `parse_ref_string` returns are determined by its input |
| ApiUtils.FirstPieceNotShorter | core/api/utils.py:35-48 | in two such splits of one string, the first piece of either is no shorter than the other's |
| ApiUtils.ScannedAppend | core/api/utils.py:36-48 | cutting the next piece at a `$` or after a `}` keeps the scan state: good pieces, flags from their first characters, cut at the marks, concatenating to the prefix read |
| ApiUtils.WordRunEnd | core/api/utils.py:151 | the longest run of word characters from a position: every character in it is a word character and the next one is not |
| ApiUtils.RunStopsAtPipe | core/api/utils.py:151 | a run of word characters that ends at a pipe is the longest run |
| ApiUtils.ColonStopsRun | core/api/utils.py:182 | a run of word characters that ends at a colon is the longest run, so `(\w+)` stops before the date suffix |
| ApiUtils.ReverseInvolutive | core/api/utils.py:60-67 | reversing a type string twice gives it back |
| ApiUtils.MirrorType | core/api/utils.py:97-101 | mirroring a type that may be None: None is a KeyError |
| ApiUtils.AddExtraKeysKeeps | core/api/utils.py:136-139 | each `val__key` piece only adds or overwrites a key; no key is lost |
| ApiUtils.SubqueryNameKeys | core/api/utils.py:124-141 | a result is either empty (an operation column) or names an entity and a field |
| ApiUtils.SpecOfRest | core/api/utils.py:135-139 | after the subquery names are dropped: fewer than two pieces raise ValueError, otherwise the first two are entity and field and the rest are extra keys |
| ArgTypes.ParsableInOrder | core/Operations/ArgType.py:47-79 | the labels `from_str` tests are exactly the fourteen parsable members |
| Ontology.ResolveNamed | core/Analysis/OperationOntology.py:176-199 | a name that is some class's own name resolves to that class |
| Ontology.AllOpsComplete | core/Analysis/OperationOntology.py:57-130 | every operation class is registered in one of the ten tables |
| Steps.ReprNoArgs | core/Analysis/AnalysisStep.py:24-25 | a step without arguments prints as `(op )` |
| Steps.StepEqEquivalence | core/Analysis/AnalysisStep.py:30-31 | step equality ignores the reference, is reflexive and symmetric |
| Steps.StepEqIff | core/Analysis/AnalysisStep.py:24-31 | for operation names without a space, two steps are equal exactly when they have the same operation and their arguments print the same |
| PlanningUtils.JoinLength | core/Planning/utils.py:29 | `sep.join` adds one separator between each two items |
| PlanningUtils.OxfordcommaLength | core/Planning/utils.py:15-29 | the phrase holds every item once plus " and " for two items, or n - 2 commas and a final ", and " for n >= 3 items |
| PlanningUtils.OxfordcommaEnds | core/Planning/utils.py:15-29 | the phrase starts with the first item and ends with the last |
| PlanningUtils.OxfordcommaExtend | core/Planning/utils.py:27-29 | adding an item to a list of two or more puts ", " after the old last item and ", and " before the new one |
| PlanningUtils.CapitalizeFirstOnly | core/Planning/utils.py:31-39 | the first character is upper-cased and the rest unchanged; an empty string is an IndexError |
| PlanningUtils.CapitalizeIdempotent | core/Planning/utils.py:31-39 | capitalising twice is capitalising once |
| RingObject.SafeExtractList | core/RingObjects/RingObject.py:18-36 | a missing or falsy value gives None; a list is returned as it is; any other value is wrapped in a list of one |
| RingObject.Kept | core/RingObjects/RingObject.py:53-56 | a truthy value or a bool is kept; anything else becomes None |
| RingObject.SafeInsert | core/RingObjects/RingObject.py:38-57 | the key is always set: an existing key keeps its place, a new one is appended |
| RingObject.SafeInsertGet | core/RingObjects/RingObject.py:38-57 | after the insert the key looks up what was kept and no other key changes |
| RingObject.ExtractAfterInsert | core/RingObjects/RingObject.py:18-57 | reading a list back after inserting it gives the list, unless it was empty |
| RingObject.BaseIsValid | core/RingObjects/RingObject.py:59-66 | the base class reports itself invalid with one message |
| TemplateSlots.SlotFromMeaning | core/Planning/SQRComposer.py:318-323 | the scan from position i finds a match exactly when a match of `{[^}]+}` starts at or after i |
| TemplateSlots.IsSlotMeaning | core/Planning/SQRComposer.py:318-323 | `is_slot` holds exactly when the text holds a match of `{[^}]+}` |
| TemplateSlots.LStripBracesMeaning | core/Planning/SQRComposer.py:263 | the left strip drops exactly the leading braces: a suffix that starts with no brace remains |
| TemplateSlots.RStripBracesMeaning | core/Planning/SQRComposer.py:263 | the right strip drops exactly the trailing braces: a prefix that ends with no brace remains |
| TemplateSlots.StripBracesOfSlot | core/Planning/SQRComposer.py:32 | `{K}` with no brace in a non-empty K is a slot |
| Joins.ModelOf | core/Analysis/QueryBuilderSQR.py:289-290 | a table without a model is an AttributeError |
| Joins.JoinsTurn | core/Analysis/QueryBuilderSQR.py:242-255 | one turn of the outer loop applies the first eligible join and continues with the rest and the grown table set, or stops with its error |
| StepLexer.RemoveParensFixes | core/Planning/AnalysisPlanParser.py:81 | text without parentheses is left as it is |
| PlanParser.ParentRefsAppend | core/Planning/AnalysisPlanParser.py:165 | outside `retrieve_attribute`, the parent references of concatenated argument lists are the concatenation of theirs |
| PlanParser.ParentRefsOne | core/Planning/AnalysisPlanParser.py:165 | outside `retrieve_attribute`, a single argument is a parent reference exactly when it is a reference |
| PlanParser.GetParentsMissing | core/Planning/AnalysisPlanParser.py:160-168 | a failure is a KeyError naming a reference that is not a key of the plan |
| PlanParser.AddStepNodes | core/Planning/AnalysisPlanParser.py:99-101 | the first loop adds one node per step, in plan order, and no edge |
| PlanParser.AddParentEdges | core/Planning/AnalysisPlanParser.py:103-105 | the inner loop adds exactly an edge from each parent into the step |
| PlanParser.LinkParents | core/Planning/AnalysisPlanParser.py:102-105 | one pass of the second loop fails exactly when the step's parents fail, with their error; otherwise it adds the edges into the step |
| PlanSplit.NextAliasFresh | core/Planning/AnalysisPlanParser.py:157 | the next alias is not a key yet, so storing under it appends and keeps the keys aliases |
| PlanSplit.ActiveCycle | core/Planning/AnalysisPlanParser.py:150-151 | reaching the root of a running call again closes a cycle through that return step |
| PlanSplit.CycleNotAcyclic | core/Planning/AnalysisPlanParser.py:137-158 | a plan with a return cycle is not acyclic, so RecursionError never happens on an acyclic plan |
| PlanSubplans.SubplanEqKeys | core/Planning/AnalysisPlanParser.py:130 | equal subplans hold the same keys, with equal steps under each |
| PlanSubplans.KeepLast | core/Planning/AnalysisPlanParser.py:128-132 | one turn of the loop grows the kept dictionary by at most the current item |
| PlanSubplans.KeptExtends | core/Planning/AnalysisPlanParser.py:128-132 | what is kept of a prefix of the input begins what is kept of the whole input, which continues with items of the rest only |
| PlanSubplans.OutputDistinct | core/Planning/AnalysisPlanParser.py:137-158 | the output of `split_on_returns` has distinct aliases and well-keyed subplans |
| PlanSubplans.RootRepresented | core/Planning/AnalysisPlanParser.py:128-132 | the root of every subplan of the input is represented after deduplication |
| PlanSubplans.KeptDependencies | core/Planning/AnalysisPlanParser.py:120-135 | a return step a kept subplan depends on has a subplan of its own, and so is represented |
| QueryArgs.QueryArguments.constructor | core/Analysis/QueryArguments.py:18-39 | every argument is stored as given and `limit` starts unset |
| QueryArgs.QueryArguments.WithoutConditions | core/Analysis/QueryArguments.py:26-27 | with `filter` and `having` omitted both are None; everything else as given |
| Operations.DescriptorOutputs | core/Operations/Aggregation/Min.py:29-31 | every described operation has exactly one output group, taking exactly one value |
| Operations.AggregateInputs | core/Operations/Aggregation/Min.py:25-28 | standard deviation, count unique and min accept one value operand and an optional Group; only min accepts a Datetime |
| Operations.AggregateTemplate | core/Operations/Aggregation/Min.py:32 | the aggregate templates name the target and no positional slot |
| Operations.UnaryTemplate | core/Operations/Math/Sqrt.py:33 | abs, sqrt and rownum templates have slot 0 only and no target |
| DatabaseInterfaces.FirstId | core/DatabaseInterface.py:64-65 | the first identifier column of the entity; an entity without ids is a TypeError |
| DatabaseInterfaces.ModelField | core/DatabaseInterface.py:69-74 | succeeds exactly when the model exists in the database and has the field, and returns that column |
| DatabaseInterfaces.TransformMeaning | core/DatabaseInterface.py:83-105 | the null cast wraps the field exactly when null handling is "cast"; rounding is the outermost layer exactly when rounding is "True"; without an attribute object the field is unchanged |
| DatabaseInterfaces.SqlalchemyField | core/DatabaseInterface.py:33-81 | only a field with an entity name is looked up; any other field gives the given column (or None) unchanged |
| DatabaseInterfaces.SqlalchemyFieldColumn | core/DatabaseInterface.py:49-74 | the id reads the primary table's first id column; a date-suffixed attribute reads its base attribute's first column with the suffix; any other attribute its first column; a missing entity is IndexError and a missing attribute KeyError |
| DatabaseInterfaces.GivenColumnKept | core/DatabaseInterface.py:69-79 | a column handed in is kept, with only the attribute's transformations added |
| DatabaseInterfaces.FieldLabelAndJoinsOfAttribute | core/DatabaseInterface.py:110-134 | the label is the column name `E//a` over the attribute's expression; the joins are exactly the attribute's joins |
| DatabaseInterfaces.FieldLabelOfWrapped | core/DatabaseInterface.py:110-134 | a parent subplan's column, which has no entity name, cannot be labelled here |
| DatabaseInterfaces.SubqueryColumnOf | core/DatabaseInterface.py:167 | a KeyError for an alias without a subquery or a column the subquery lacks; otherwise that column |
| DatabaseInterfaces.CollectOk | core/DatabaseInterface.py:160-180 | the argument loop succeeds exactly when every remaining argument translates |
| DatabaseInterfaces.CollectFields | core/DatabaseInterface.py:160-180 | the loop keeps the expressions collected so far and adds one per remaining argument, in order |
| DatabaseInterfaces.CollectJoins | core/DatabaseInterface.py:160-180 | the loop's joins are those collected so far plus those of the remaining arguments |
| DatabaseInterfaces.ArgumentJoins | core/DatabaseInterface.py:162-180 | plain arguments and parents' columns need no joins; attributes need their own; nested records need theirs |
| DatabaseInterfaces.EntitylessArgumentRaises | core/DatabaseInterface.py:175 | an argument record without entity name whose field is neither a column reference nor a nested record raises the generic exception |
| DatabaseInterfaces.OperationLabel | core/DatabaseInterface.py:157-188 | the label is the record's column name over the operation applied to one expression per argument, in order, rounded to two places exactly for average, stddev, divide and percent_change |
| DatabaseInterfaces.OperationJoins | core/DatabaseInterface.py:158-180 | an operation record needs exactly the joins its arguments need |
| DatabaseInterfaces.OperationFails | core/DatabaseInterface.py:157-188 | the translation fails exactly when the kind is unknown, an argument fails, or the record has no column name |
| DatabaseInterfaces.GetFieldLabelAndJoinsForOperation | core/DatabaseInterface.py:136-188 | the method with its argument loop computes `OperationLabelAndJoins` |
| BuildQuery.Select | core/Analysis/QueryBuilderSQR.py:126-130 | the loop over the collect step's arguments leaves the record that `SelectSpec` builds, or its error |
| BuildQuery.Sort | core/Analysis/QueryBuilderSQR.py:142-146 | the loop over the (attribute, direction) pairs leaves the record that `SortSpec` builds, or its error |
| BuildQuery.ReturnArg | core/Analysis/QueryBuilderSQR.py:132-150 | one further return argument leaves the record that `ReturnArgSpec` builds: a condition as filter or having, a sort's pairs, or the limit |
| BuildQuery.ReturnArgs | core/Analysis/QueryBuilderSQR.py:132-150 | the loop over the further return arguments leaves the record that `ReturnArgsSpec` builds |
| BuildQuery.Retrieve | core/Analysis/QueryBuilderSQR.py:60-79 | the retrieval branch leaves the record and fields that `RetrieveSpec` gives |
| BuildQuery.Attribute | core/Analysis/QueryBuilderSQR.py:64-77 | `retrieve_attribute` leaves the record and fields that `AttributeSpec` gives |
| BuildQuery.Record | core/Analysis/QueryBuilderSQR.py:80-98 | a boolean, arithmetic or row-number step yields the field `RecordSpec` describes |
| BuildQuery.Analysis | core/Analysis/QueryBuilderSQR.py:111-121 | an analysis step yields the field `AnalysisSpec` describes, over its non-groupby operands |
| BuildQuery.SnapsPut | core/Analysis/QueryBuilderSQR.py:50 | storing a record object under an alias stores its value under that alias |
| BuildQuery.BuildFromStep | core/Analysis/QueryBuilderSQR.py:41-152 | one subplan of the fold: an error ends the fold, a result is stored under the alias and the fold goes on |
| BuildQuery.FillSubplan | core/Analysis/QueryBuilderSQR.py:49-152 | a fresh record for one subplan, filled by its steps as `SubplanSpec` says |
| BuildQuery.AddSubplan | core/Analysis/QueryBuilderSQR.py:41-152 | one pass of the loop over the subplans advances the fold `BuildFrom` by one subplan with fresh objects |
| SqrComposer.AlphabetIsCapitals | core/Planning/SQRComposer.py:39 | the alphabet lists the 26 capitals in order |
| SqrComposer.LetterAtInjective | core/Planning/SQRComposer.py:38-50 | the letter generator never returns the same letters twice |
| SqrComposer.LettersInOrder | core/Planning/SQRComposer.py:38-50 | the first letters are A to Z, then AA to ZZ, then AAA |
| SqrComposer.Composer.GetNextRefLetter | core/Planning/SQRComposer.py:38-50 | returns the letters of the current call count (A..Z, then doubled, and so on) and advances the counter by one |
| SqrComposer.RenameKey | core/Planning/SQRComposer.py:347 | the addition goes before the last character of the reference |
| SqrComposer.RenameKeyInjective | core/Planning/SQRComposer.py:347 | renaming with one addition sends different references to different ones |
| SqrComposer.RenameArgsOk | core/Planning/SQRComposer.py:355-360 | the arguments rename without error exactly when every reference among them is a key |
| SqrComposer.RenameStepsOk | core/Planning/SQRComposer.py:350-360 | the steps rename without error exactly when every step's arguments do |
| SqrComposer.RenamedPlanMeaning | core/Planning/SQRComposer.py:325-361 | `append_to_plan_refs` succeeds exactly when no key is empty and every reference argument is a key; the copy has each key renamed in the same order, each step's `ref` set to its new key, its operation kept, each reference argument renamed and every other argument kept |
| SqrComposer.RenamedPlanDistinct | core/Planning/SQRComposer.py:347-350 | the renamed copy of a dictionary has no repeated key |
| SqrComposer.RenamedPlanErrorIndependent | core/Planning/SQRComposer.py:325-361 | whether the renaming fails, and with which error, does not depend on the letters added |
| SqrComposer.AppendToPlanRefs | core/Planning/SQRComposer.py:325-361 | the loops compute the renamed copy `RenamedPlan` |
| SqrComposer.ComposeFilterPlansOkIff | core/Planning/SQRComposer.py:141-173 | two or more filter plans compose exactly when each renames without error and none is empty |
| SqrComposer.ComposeFilterPlansJoined | core/Planning/SQRComposer.py:145-173 | each plan is renamed with the letters of its own call, every renamed key is in the result, and the joining step, named `|1<letters>|` with the letters of the next call, applies the joiner (`or` when none is given) to the renamed last keys in order |
| SqrComposer.Composer.ComposeFilterPlans | core/Planning/SQRComposer.py:127-173 | no plan gives the empty plan, one plan is returned as it is, more are renamed with one letter drawn per plan, and one more drawn for the joiner once every plan has a last key |
| SqrComposer.ComposeFilterAndAccessPlanMeaning | core/Planning/SQRComposer.py:94-125 | with a return step and no key clash, every access step and every renamed filter step is in the result, and the first return step gains the renamed last reference of the filter as its new last argument |
| SqrComposer.Composer.ComposeFilterAndAccessPlan | core/Planning/SQRComposer.py:94-125 | an empty filter leaves the access plan and draws no letter; otherwise one letter is drawn and the result is `ComposeFilterAndAccessPlanSpec`; no return step is an IndexError |
| SqrComposer.LastWithOperation | core/Planning/SQRComposer.py:195-197 | the key of the last step with the operation, as the loop leaves it |
| SqrComposer.FirstWithOperationAt | core/Planning/SQRComposer.py:122 | the first step with the operation is the first the scan meets |
| SqrComposer.SlotsUpToMeaning | core/Planning/SQRComposer.py:290-316 | the slot search fails exactly when a `retrieve_attribute` step lacks an argument it reads; otherwise each slot lists, in plan order, the keys of the qualifying steps that hold it, and nothing else is a key |
| SqrComposer.SlotsUpToDistinct | core/Planning/SQRComposer.py:307-316 | the slot dictionary has each slot as a key once |
| SqrComposer.Composer.GetBasePlanSlots | core/Planning/SQRComposer.py:290-316 | the loop computes the slot search |
| SqrComposer.ArgTypesForStep | core/Planning/SQRComposer.py:265-288 | an attribute retrieval takes its attribute's types through the entity step it names; an analysis step the types of its class's first output; any other step raises ValueError |
| SqrComposer.NumericAnalysisTypes | core/Planning/SQRComposer.py:271-273 | `stddev`, `count_unique` and `min` steps can fill a slot for a number |
| SqrComposer.MatchesMeaning | core/Planning/SQRComposer.py:247-250 | a reference is listed for a slot exactly when its types hold the slot's type |
| SqrComposer.MatchSlotsGet | core/Planning/SQRComposer.py:246-252 | with each slot a key once, the matching loop leaves each slot with exactly its matches |
| SqrComposer.Composer.GetRefsForSlots | core/Planning/SQRComposer.py:220-252 | the loops compute `RefsForSlots`: the last collect step's arguments, their types, then each slot's matches |
| SqrComposer.RetargetSlotsAll | core/Planning/SQRComposer.py:201-209 | with each slot listed once, each of its steps listed once and holding it, and every step completable, the loops raise nothing and retarget exactly the listed steps |
| SqrComposer.BasePlanSlotsFit | core/Planning/SQRComposer.py:290-316 | the slot dictionary of a base plan meets the conditions of `RetargetSlotsAll` once every slot has a candidate |
| SqrComposer.BasePlanSlotsCover | core/Planning/SQRComposer.py:307-316 | the slots' lists together name exactly the qualifying steps |
| SqrComposer.ComposeAccessPlanAndBasePlanRetargets | core/Planning/SQRComposer.py:175-218 | nothing is raised; each collected step reads its attribute from the access plan's last return step with the first candidate for its slot; every other base step is unchanged; the access steps are merged in |
| SqrComposer.Composer.ComposeAccessPlanAndBasePlan | core/Planning/SQRComposer.py:175-218 | the listed base steps are edited in place; the new steps and the result are `ComposeAccessPlanAndBasePlanSpec` |
| SqrComposer.ComposeOne | core/Planning/SQRComposer.py:52-92 | composing one access plan: renamed with the next letters and merged in, each collected base step reads from its last return step with the first candidate for its slot; a slot with no candidate raises ValueError |
| SqrComposer.Composer.Compose | core/Planning/SQRComposer.py:52-92 | the loop over the access plans computes `ComposeSpec` and draws the letters each round draws |
| SqrComposer.CandidatesForEverySlot | core/Planning/SQRComposer.py:85-87 | a slot dictionary with no empty list gives every slot a candidate |
| SqrComposer.RenameKeyExample | core/Planning/SQRComposer.py:325-361 | "\|1\|" renamed with "A" is "\|1A\|", and "\|12\|" with "AA" is "\|12AA\|" |
| SqrComposer.RenameEach | core/Planning/SQRComposer.py:147-153 | the renaming loop draws at most one letter per plan, and exactly one per plan when every renaming succeeds, giving one renamed plan per plan |
| SqrComposer.ComposeFilterPlansCases | core/Planning/SQRComposer.py:145-173 | two or more filter plans give a renaming error, an error for an empty plan, or the joined plan |
| SqrComposer.ComposeFilterPlansMeaning | core/Planning/SQRComposer.py:145-173 | two or more filter plans compose exactly when each renames and none is empty; each is renamed with its own call's letters, every renamed key is in the result, and the joining step, named with the next letters, applies the joiner (`or` by default) to every plan's renamed last step |
| SqrComposer.ComposeFilterAndAccessPlanShape | core/Planning/SQRComposer.py:111-125 | with a return step found, the result is the access plan updated with the renamed filter, its first return step gaining the filter's last reference |
| SqrComposer.LastCollectArgs | core/Planning/SQRComposer.py:232-236 | a non-empty result is the arguments of the last `collect` step |
| SqrComposer.DescribedAnalysisTypes | core/Planning/SQRComposer.py:265-288 | an analysis class defined here takes the types of its first output |
| SqrComposer.DescribedAnalysisOps | core/Planning/SQRComposer.py:265-288 | of the analysis operations only `stddev`, `count_unique` and `min` have class definitions in this model |
| SqrComposer.Retargeted | core/Planning/SQRComposer.py:204-209 | a retargeted step keeps its key, operation and later arguments, and reads from the return step with the first candidate for its slot |
| SqrComposer.StepsWithSlotMembers | core/Planning/SQRComposer.py:290-316 | a slot lists, once each, exactly the keys of the qualifying steps that hold it |
| SqrComposer.BasePlanSlotsLists | core/Planning/SQRComposer.py:290-316 | each slot's list is the search's list of the steps using that slot |
| SqrComposer.BasePlanSlotsEligible | core/Planning/SQRComposer.py:290-316 | each slot's list has no repeats and names eligible steps that use that slot |
| SqrComposer.ComposeSingle | core/Planning/SQRComposer.py:52-92 | with one access plan, `compose` is one round from the base plan |
| SqrComposer.Composer.constructor | core/Planning/SQRComposer.py:26-36 | a new composer over the ring has drawn no letter |
| SqrComposer.Composer.GetSlotTypes | core/Planning/SQRComposer.py:239-243 | the loop over the collected references computes `CollectSlotTypes` |
| SqrComposer.Composer.RetargetSlot | core/Planning/SQRComposer.py:202-209 | the loop over one slot's steps computes `RetargetRefs` on the base plan |
| SqrComposer.Composer.RetargetStep | core/Planning/SQRComposer.py:204-209 | one listed step is edited as `RetargetOne` says |
| SqrComposer.Composer.RenamePlans | core/Planning/SQRComposer.py:147-153 | computes `RenameEach`, drawing as many letters as it says |
| SqrComposer.Composer.ComposeNext | core/Planning/SQRComposer.py:68-90 | one pass of the loop of `compose` computes `Round`, drawing one letter when it succeeds |
| SqrComposer.FindLastCollectArgs | core/Planning/SQRComposer.py:233-236 | the loop computes `LastCollectArgs` |
| SqrComposer.FindLastOperation | core/Planning/SQRComposer.py:195-197 | the loop computes `LastWithOperation` |
| SqrComposer.MatchTypes | core/Planning/SQRComposer.py:248-250 | the inner loop computes `Matches` |
| SqrComposer.MatchAllSlots | core/Planning/SQRComposer.py:246-252 | the outer loop, from empty lists, computes `MatchSlots` |
| SqrComposer.FinalKeys | core/Planning/SQRComposer.py:161 | computes `LastKeys` of the plans |
| SqrComposer.MergePlans | core/Planning/SQRComposer.py:164-166 | the update loop computes `MergeAll` |
| SqrComposer.ExtendEach | core/Planning/SQRComposer.py:81-82 | the loop computes `ExtendAll` |
| SqrComposer.AnySlotEmpty | core/Planning/SQRComposer.py:85-87 | answers `SomeSlotEmpty` |
| SqrPlanFiller.GroupDistinct | core/Document/Blueprints/SQRPlanFiller.py:132-163 | the slot dictionary holds every key once |
| SqrPlanFiller.OccurrencesMember | core/Document/Blueprints/SQRPlanFiller.py:133-161 | every slot the template holds, in an operation or an argument, is recorded, and nothing else |
| SqrPlanFiller.SlotsOfGet | core/Document/Blueprints/SQRPlanFiller.py:132-163 | the locations listed under a key are exactly the places where the template holds that slot |
| SqrPlanFiller.OccurrencesKeys | core/Document/Blueprints/SQRPlanFiller.py:133-161 | every recorded location names a step of the plan |
| SqrPlanFiller.OccurrencesOrdered | core/Document/Blueprints/SQRPlanFiller.py:133-161 | slots are recorded step by step in plan order, and within a step the operation first and then the arguments by index |
| SqrPlanFiller.IdentifySlots | core/Document/Blueprints/SQRPlanFiller.py:123-163 | the loops compute the slot dictionary `SlotsOf` |
| SqrPlanFiller.FillLoopAny | core/Document/Blueprints/SQRPlanFiller.py:48-58 | `filled_any_slot` is set exactly when some filler key is a slot key of the template |
| SqrPlanFiller.FilledAt | core/Document/Blueprints/SQRPlanFiller.py:48-58 | each text of the filled plan is the template's text with its slot replaced when its key has a filler |
| SqrPlanFiller.FilledAgree | core/Document/Blueprints/SQRPlanFiller.py:48-58 | fillers that agree on every slot key of the template fill it the same way |
| SqrPlanFiller.FillNoSlot | core/Document/Blueprints/SQRPlanFiller.py:49 | a filler whose key is no slot key changes nothing |
| SqrPlanFiller.FillSlot | core/Document/Blueprints/SQRPlanFiller.py:49-57 | a filler whose key is a slot key is written at exactly that slot's places |
| SqrPlanFiller.FilledNone | core/Document/Blueprints/SQRPlanFiller.py:27-64 | no fillers leave the template as it is |
| SqrPlanFiller.FillLoopMeaning | core/Document/Blueprints/SQRPlanFiller.py:48-58 | the loop over the fillers gives the template filled with them, and whether one was a slot key |
| SqrPlanFiller.FillPlanMeaning | core/Document/Blueprints/SQRPlanFiller.py:27-64 | `fill_plan` fills every slot whose key has a filler, and only those; when no filler key is a slot key the template comes back unchanged |
| SqrPlanFiller.FilledDistinct | core/Document/Blueprints/SQRPlanFiller.py:41-57 | the filled plan has the template's keys, each once |
| SqrPlanFiller.FillCopy | core/Document/Blueprints/SQRPlanFiller.py:41-58 | the filling loop computes `FillLoop` on the copy |
| SqrPlanFiller.FillPlan | core/Document/Blueprints/SQRPlanFiller.py:27-64 | the method computes `FillOutcome`: the filled copy when a slot was filled, else the template |
| SqrPlanFiller.DedupeUnique | core/Document/Blueprints/SQRPlanFiller.py:117-121 | no two kept plans are equal |
| SqrPlanFiller.DedupeCovers | core/Document/Blueprints/SQRPlanFiller.py:117-121 | every plan of the list has an equal kept plan |
| SqrPlanFiller.ListedKept | core/Document/Blueprints/SQRPlanFiller.py:117-121 | a plan has an equal kept plan exactly when it has an equal plan in the list |
| SqrPlanFiller.DedupeFirstOccurrences | core/Document/Blueprints/SQRPlanFiller.py:108-121 | `dedupe_list_of_dict` keeps exactly the first plan of each group of equal plans, in order |
| SqrPlanFiller.DedupeList | core/Document/Blueprints/SQRPlanFiller.py:108-121 | the loop computes `Deduped` |
| SqrPlanFiller.CandidatesSound | core/Document/Blueprints/SQRPlanFiller.py:81-101 | each candidate is the template filled by a dictionary that fills a slot |
| SqrPlanFiller.CandidatesComplete | core/Document/Blueprints/SQRPlanFiller.py:81-101 | each filling by a dictionary that fills a slot is a candidate |
| SqrPlanFiller.GeneratedMeaning | core/Document/Blueprints/SQRPlanFiller.py:66-106 | the plans returned are pairwise different; each is the template filled by a dictionary that fills a slot, and each such filling has an equal plan among them |
| SqrPlanFiller.GeneratePlans | core/Document/Blueprints/SQRPlanFiller.py:66-106 | the loops compute `Generated`: the filled candidates, deduplicated |
| SqrPlanFiller.ArgOccurrencesOrdered | core/Document/Blueprints/SQRPlanFiller.py:149-161 | a step's argument slots are recorded by increasing index, each under that step's key |
| SqrPlanFiller.SlotsOfValid | core/Document/Blueprints/SQRPlanFiller.py:123-163 | the slot dictionary lists only places the template has, and each slot once |
| SqrPlanFiller.Filled | core/Document/Blueprints/SQRPlanFiller.py:48-58 | the filled plan keeps the template's keys and fills each of its texts on its own |
| SqrPlanFiller.FillLoopFilled | core/Document/Blueprints/SQRPlanFiller.py:48-58 | after the first n fillers the copy is the template filled with those fillers |
| SqrPlanFiller.FilledUnchanged | core/Document/Blueprints/SQRPlanFiller.py:61-64 | fillers none of whose keys is a slot key leave the template as it is |
| SqrPlanFiller.ListedKeptSound | core/Document/Blueprints/SQRPlanFiller.py:108-121 | a plan equal to a kept plan is equal to a plan of the list |
| SqrPlanFiller.ListedKeptComplete | core/Document/Blueprints/SQRPlanFiller.py:108-121 | a plan equal to one of the list is equal to a kept plan |
| SqrPlanFiller.CandidatesDistinct | core/Document/Blueprints/SQRPlanFiller.py:79-101 | the plans filled from dictionaries keep distinct keys |
| SqrPlanFiller.GeneratedSound | core/Document/Blueprints/SQRPlanFiller.py:66-106 | every generated plan is the template filled by one of the dictionaries that fills a slot |
| SqrPlanFiller.GeneratedComplete | core/Document/Blueprints/SQRPlanFiller.py:66-106 | every dictionary that fills a slot has its filling, or an equal plan, among the generated plans |
| SqrPlanFiller.Record | core/Document/Blueprints/SQRPlanFiller.py:137-146 | the two branches for a slot together extend the key's list by the location |
| SqrPlanFiller.IdentifyArgSlots | core/Document/Blueprints/SQRPlanFiller.py:149-161 | the inner loop groups the slots of the step's arguments after those found before |
| SqrPlanFiller.FillLocations | core/Document/Blueprints/SQRPlanFiller.py:50-57 | the inner loop writes the filler at every location of one slot |
| BlueprintUtils.BuildMetricName | core/Document/Blueprints/utils.py:13-16 | the metric name always ends with the attribute name |
| BlueprintUtils.BuildMetricNameInjective | core/Document/Blueprints/utils.py:13-16 | with no underscore in the aggregation or the entity, an aggregated metric name gives all three parts back |
| BlueprintUtils.UnderscoreSplit | core/Document/Blueprints/utils.py:16 | `a_b` with no underscore in `a` determines `a` and `b` |
| Blueprints.ExactFilter | core/Document/Blueprints/TimeOverTimeBlueprint.py:93-106 | three steps `\|1\|`, `\|2\|`, `\|3\|`: retrieve the entity, retrieve the attribute, keep the rows exactly equal to the quoted value |
| Blueprints.ExactFilterInjective | core/Document/Blueprints/TimeOverTimeBlueprint.py:100-106 | two exact filters on one attribute are equal only for the same value |
| Blueprints.SetFilterOnly | core/Document/Blueprints/RankingBlueprint.py:146-149 | the set filter alone, with no joiner, when it is set (not None and not empty); no filters otherwise |
| Blueprints.SetOrNone | core/Document/Blueprints/TimeOverTimeBlueprint.py:157 | the set filter when it is set, else None |
| Blueprints.Item | core/Document/Blueprints/TimeOverTimeBlueprint.py:88 | indexing a list succeeds exactly within its length; IndexError otherwise |
| Blueprints.MetricAttribute | core/Document/Blueprints/TimeOverTimeBlueprint.py:79-91 | the attribute of the first entity with the blueprint's entity name; IndexError when there is no such entity |
| Blueprints.ResolveMetric | core/Document/Blueprints/TimeOverTimeBlueprint.py:60-91 | the metric is named by `build_metric_name`; resolved exactly when the entity has that attribute and its nicename has a first item; both access plans are the attribute's one access plan |
| Blueprints.EntityGroup | core/Document/Blueprints/TimeOverTimeBlueprint.py:52 | the plural nicename of the entity; IndexError when the ring has no such entity |
| Blueprints.TargetRange | core/Document/Blueprints/TimeOverTimeBlueprint.py:300-301 | the preference direction when it is given; otherwise the metric entity's metric entry, IndexError when there is no such entity |
| Blueprints.Compose | core/Document/Blueprints/TimeOverTimeBlueprint.py:114-152 | each draft, in order, gets the base plan of its plan name; a missing template is a KeyError naming a plan that has none |
| Blueprints.ComposeAppend | core/Document/Blueprints/TimeOverTimeBlueprint.py:114-145 | composing two runs of drafts is composing each and appending |
| Blueprints.PlanNames | core/Document/Blueprints/TimeOverTimeBlueprint.py:151 | the plan names of the drafts, in order |
| Blueprints.SuffixesClash | core/Document/Blueprints/ComparativeBenchmarkBlueprint.py:258 | a text cannot end with two closings that differ at the same distance from the end |
| BenchmarkBlueprints.NotInstanceFilter | core/Document/Blueprints/ComparativeBenchmarkBlueprint.py:128-134 | the instance filter followed by a fourth step `(not \|3\|)` |
| BenchmarkBlueprints.NewBenchmark | core/Document/Blueprints/ComparativeBenchmarkBlueprint.py:24-66 | built exactly when the metric resolves; the instance filter is the exact filter on the identifier and its negation adds `(not \|3\|)` |
| BenchmarkBlueprints.SpecsAreDrafts | core/Document/Blueprints/ComparativeBenchmarkBlueprint.py:68-95 | the specs are composed exactly when the first plan has a template, the target range can be read and the other eight plans have templates; they are the nine drafts in order |
| BenchmarkBlueprints.DraftNames | core/Document/Blueprints/ComparativeBenchmarkBlueprint.py:75-95 | the nine drafts carry the nine plan names for the target range |
| BenchmarkBlueprints.PlanOrder | core/Document/Blueprints/ComparativeBenchmarkBlueprint.py:75-95 | nine specs, named in order after the target range |
| BenchmarkBlueprints.DraftAggregates | core/Document/Blueprints/ComparativeBenchmarkBlueprint.py:187-210 | the min, max, median, average and stddev drafts read the comparison set without the instance |
| BenchmarkBlueprints.AggregatesExcludeInstance | core/Document/Blueprints/ComparativeBenchmarkBlueprint.py:187-210 | the five aggregate specs read the metric over the comparison set and the not-instance filter joined with "and", each with its aggregation |
| BenchmarkBlueprints.DraftComparisons | core/Document/Blueprints/ComparativeBenchmarkBlueprint.py:161-184 | the target comparison carries the target as its quantity; the two comparisons with the others read "\|A\|" without the instance and "\|B\|" over the set |
| BenchmarkBlueprints.ComparisonSpecs | core/Document/Blueprints/ComparativeBenchmarkBlueprint.py:161-237 | the benchmark spec's quantity is the target; in the comparisons with the others, "\|A\|" excludes the instance and "\|B\|" reads the comparison set |
| BenchmarkBlueprints.NamesByRange | core/Document/Blueprints/ComparativeBenchmarkBlueprint.py:161-237 | the comparison plans say "greater" exactly when higher is better |
| BenchmarkBlueprints.ComparisonDirection | core/Document/Blueprints/ComparativeBenchmarkBlueprint.py:161-237 | the comparisons ask "greater than" exactly when the target range is "+inf" |
| BenchmarkBlueprints.BaselinePrompt | core/Document/Blueprints/ComparativeBenchmarkBlueprint.py:253-259 | the prompt starts with the instance reference and ends by saying which side of the target is better |
| BenchmarkBlueprints.EndingsDiffer | core/Document/Blueprints/ComparativeBenchmarkBlueprint.py:258 | no prompt ends with both the "higher" and the "lower" closing |
| BenchmarkBlueprints.PromptDirection | core/Document/Blueprints/ComparativeBenchmarkBlueprint.py:253-259 | the prompt says higher is better exactly when the preference direction is "+inf" |
| TimeOverTimeBlueprints.NewTimeOverTime | core/Document/Blueprints/TimeOverTimeBlueprint.py:21-67 | built exactly when the entity group and the metric resolve (the entity group first); the constructor precomputes the instance filter and the two time filters, exact filters on the metric entity's time attribute |
| TimeOverTimeBlueprints.TimeFiltersDistinguish | core/Document/Blueprints/TimeOverTimeBlueprint.py:64-65 | the two time filters are equal exactly when the two times are |
| TimeOverTimeBlueprints.PlanOrder | core/Document/Blueprints/TimeOverTimeBlueprint.py:108-145 | composed exactly when all five plans have templates; then eleven specs, named in order, each with its plan's template; otherwise a KeyError naming a missing plan |
| TimeOverTimeBlueprints.SpecsAreDrafts | core/Document/Blueprints/TimeOverTimeBlueprint.py:114-145 | the eleven specs carry the drafts' access plans and fillers, in order |
| TimeOverTimeBlueprints.DraftReadings | core/Document/Blueprints/TimeOverTimeBlueprint.py:147-294 | which time filter and which instance filter each of the eleven drafts reads |
| TimeOverTimeBlueprints.ValuesAtTimes | core/Document/Blueprints/TimeOverTimeBlueprint.py:116-137 | the instance's value at the first and the second time, then average, min and max over all entities at the first time and again at the second, each stating "for" its time |
| TimeOverTimeBlueprints.ChangesOverTime | core/Document/Blueprints/TimeOverTimeBlueprint.py:191-294 | the instance's percent change reads the instance at the first time as "\|A\|" and the second as "\|B\|"; the average change reads all entities likewise; the final comparison reads instance at t0, instance at t1, all at t0, all at t1 |
| TimeOverTimeBlueprints.SetFilterLast | core/Document/Blueprints/TimeOverTimeBlueprint.py:157-180 | every reading starts with its time filter, is joined with "and", and ends with the set filter, or None when it is not set |
| TimeOverTimeBlueprints.BaselinePrompt | core/Document/Blueprints/TimeOverTimeBlueprint.py:303-308 | the prompt starts with the instance reference and ends by saying which values are better |
| TimeOverTimeBlueprints.PromptDirection | core/Document/Blueprints/TimeOverTimeBlueprint.py:303-308 | the prompt says higher values are better exactly when the preference direction is "+inf" |
| RankingBlueprints.NewRanking | core/Document/Blueprints/RankingBlueprint.py:24-65 | built exactly when the entity group and the metric resolve; three instances are listed; the instance filter is the exact filter on the identifier |
| RankingBlueprints.SpecsAreDrafts | core/Document/Blueprints/RankingBlueprint.py:67-101 | composed exactly when the leading plans have templates, the target range can be read and the comparison plan has a template; then the nine drafts in order |
| RankingBlueprints.DraftNames | core/Document/Blueprints/RankingBlueprint.py:74-101 | the nine drafts carry the plan names for the sort direction and the target range |
| RankingBlueprints.PlanOrder | core/Document/Blueprints/RankingBlueprint.py:74-101 | nine specs, named in order after the sort direction and the target range |
| RankingBlueprints.DraftFilters | core/Document/Blueprints/RankingBlueprint.py:134-319 | which filters each of the nine drafts reads |
| RankingBlueprints.SetFilters | core/Document/Blueprints/RankingBlueprint.py:146-149 | every spec but the aggregates reads the set filter when it is set and no filter otherwise; the aggregates, and the first plan of the comparison, always list it |
| RankingBlueprints.DraftTopThreeAndDistance | core/Document/Blueprints/RankingBlueprint.py:205-260 | the top-three draft's quantity is the limit; the distance draft reads "\|A\|" and "\|B\|" |
| RankingBlueprints.TopThreeAndDistance | core/Document/Blueprints/RankingBlueprint.py:205-260 | the top three of a descending ranking and the bottom three otherwise, quantity 3; the distance from the maximum when descending, over "\|A\|" and "\|B\|" |
| RankingBlueprints.NamesByDirection | core/Document/Blueprints/RankingBlueprint.py:211-293 | the plan names follow the sort direction and the target range |
| RankingBlueprints.ComparisonDirection | core/Document/Blueprints/RankingBlueprint.py:293 | the last spec asks "greater than the average" exactly when the target range is "+inf" |
| RingAugmentors.CountOperationsAre | core/RingAugmentor.py:78-80 | whatever the iteration order, the count operations are exactly [count_unique] |
| RingAugmentors.MetricAggregationOperationsAre | core/RingAugmentor.py:117-119 | whatever the iteration order, the metric operations are average, max, min, median and sum, each once; "std_dev" is not registered, so StdDev is never among them |
| RingAugmentors.AsWrittenDropsBaseIsa | core/RingAugmentor.py:196 | as written the derived attribute's base isa is None whatever the aggregated attribute's, and it differs from the intended one only there |
| RingAugmentors.AsWrittenFloatExample | core/RingAugmentor.py:196 | a float attribute averaged: as written the base isa is None instead of "float" |
| RingAugmentors.CreateAggregationAttributeMeaning | core/RingAugmentor.py:156-200 | created exactly when the aggregated attribute's nicename has a first item; named `op_related_attr` as `build_metric_name` names it; typed with the operation's outputs; both isas inherited; no parent entity and no source; both nicenames "op nick" |
| RingAugmentors.IdentifierNameFirst | core/RingAugmentor.py:54-55 | the identifier is the first attribute typed Identifier, or "id" when there is none |
| RingAugmentors.IdentifierIgnoresPlans | core/RingAugmentor.py:54-55 | the identifier found is the same whatever the access plans |
| RingAugmentors.WithAccessPlansKeeps | core/RingAugmentor.py:52-71 | planning an entity fails exactly on an attribute without types; the error is the identifier lookup's; otherwise it keeps the entity and every attribute's name and types, changing access plans only |
| RingAugmentors.PlanAttributes | core/RingAugmentor.py:52-71 | the attribute loop, looking the identifier up anew for every attribute, computes `WithAccessPlans` |
| RingAugmentors.WithAccessPlansIdempotent | core/RingAugmentor.py:52-71 | planning an entity a second time gives it the same plans |
| RingAugmentors.AccessPlansFromMeaning | core/RingAugmentor.py:44-72 | every entity is kept but for access plans; the loop raises exactly when some entity has an attribute without types, and otherwise every entity gets its plans |
| RingAugmentors.AccessPlansIdempotent | core/RingAugmentor.py:44-72 | generating the access plans again after a success changes nothing |
| RingAugmentors.RingAugmentor.GenerateAccessPlans | core/RingAugmentor.py:44-72 | the loops leave the entities and error `AccessPlansFrom` gives; relationships are unchanged |
| RingAugmentors.ApplyAllAdds | core/RingAugmentor.py:144-152 | applying recipes adds exactly their names, each holding an attribute of that name |
| RingAugmentors.AggsFromIs | core/RingAugmentor.py:144-152 | with a group-by and an operation, the loops apply the recipes of every aggregated attribute before the first whose nicename has no first item, and stop there with its error |
| RingAugmentors.AggsFromNoCombination | core/RingAugmentor.py:144-152 | no group-by or no operation: nothing is derived and nothing raised |
| RingAugmentors.AggRecipesCount | core/RingAugmentor.py:144-152 | one recipe per aggregated attribute, group-by attribute and operation |
| RingAugmentors.OverRelatedMeaning | core/RingAugmentor.py:136-152 | one related entity changes only the target, and only by adding attributes to it |
| RingAugmentors.OverRelatedCount | core/RingAugmentor.py:136-152 | when nothing is raised the target gains one attribute per attribute of the related entity with the type, identifier of the target and operation |
| RingAugmentors.CountsOverRelatedCount | core/RingAugmentor.py:97-113 | for counts, the target gains one attribute per identifier of the related entity and identifier of its own |
| RingAugmentors.OverRelatedFromMeaning | core/RingAugmentor.py:97-113 | the related entities together change only the target, and only by adding attributes |
| RingAugmentors.AggregateOverUnrelated | core/RingAugmentor.py:86-95 | an entity nothing relates to is left as it is |
| RingAugmentors.AggregateOverExtends | core/RingAugmentor.py:121-154 | the aggregations over the related entities only add attributes, to the target alone |
| RingAugmentors.DerivedFromMeaning | core/RingAugmentor.py:29-42 | deriving attributes keeps every entity but for the attributes it adds to it |
| RingAugmentors.DerivedFromNoRelationships | core/RingAugmentor.py:29-42 | without relationships nothing is derived and nothing raised |
| RingAugmentors.RelatedNameBranches | core/RingAugmentor.py:88-92 | the test, one-to-many first, picks the `to` of an outgoing one-to-many and the `fro` of an incoming many-to-one |
| RingAugmentors.RingAugmentor.RelatedEntityNames | core/RingAugmentor.py:86-92 | the loop computes the related names in relationship order |
| RingAugmentors.RingAugmentor.AggregateOverRelated | core/RingAugmentor.py:95-152 | the loop over the related entities, in ring order, computes `AggregateOver`; relationships unchanged |
| RingAugmentors.RingAugmentor.GenerateMetricAggregations | core/RingAugmentor.py:121-154 | aggregates the Arithmetic attributes of the related entities by the metric operations |
| RingAugmentors.RingAugmentor.GenerateCounts | core/RingAugmentor.py:82-115 | aggregates the Identifier attributes of the related entities by the count operations |
| RingAugmentors.RingAugmentor.GenerateDerivedAttributes | core/RingAugmentor.py:29-42 | the metric aggregations and then the counts for every entity in turn, until one raises, as `DerivedFrom` gives |
| RingAugmentors.LookupAnalysisIff | core/RingAugmentor.py:80 | the analysis table holds an operation under a name exactly when that is its registered name |
| RingAugmentors.RegisteredAnalysisMembers | core/RingAugmentor.py:79-80 | an operation is listed exactly when one of the names is its registered analysis name |
| RingAugmentors.RegisteredAnalysisDistinct | core/RingAugmentor.py:79-80 | distinct names give distinct operations |
| RingAugmentors.CountNameOp | core/RingAugmentor.py:79 | count_unique is the only class registered under a count name |
| RingAugmentors.MetricNameOp | core/RingAugmentor.py:118 | a class registered under a metric name is average, max, min, median or sum |
| RingAugmentors.IdentifierNameSelects | core/RingAugmentor.py:54-55 | the identifier is the first attribute selected as Identifier, or "id" when there is none |
| RingAugmentors.IdentifierNameOk | core/RingAugmentor.py:54 | the identifier is found exactly when every attribute has a type list |
| RingAugmentors.AccessPlansFromFixed | core/RingAugmentor.py:51-72 | entities already planned stay as they are |
| RingAugmentors.AddDerivedAdds | core/RingAugmentor.py:151-152 | storing a derived attribute under its own name adds exactly that name |
| RingAugmentors.GroupbyRecipesCount | core/RingAugmentor.py:145-146 | one derived attribute per group-by attribute and operation |
| RingAugmentors.ApplyAllCount | core/RingAugmentor.py:144-152 | applying the recipes in full adds one name per recipe |
| RingAugmentors.AggsFromCount | core/RingAugmentor.py:144-152 | when nothing raises, one attribute is added per combination of aggregated attribute, group-by attribute and operation |
| RingAugmentors.AggregateOver | core/RingAugmentor.py:121-154 | the pass over one target keeps the number of entities |
| RingAugmentors.DeriveFor | core/RingAugmentor.py:37-40 | the metric aggregations, then the counts, for one entity keep the number of entities |
| RingAugmentors.DerivedFrom | core/RingAugmentor.py:29-42 | deriving keeps the number of entities |
| RingAugmentors.AddOperations | core/RingAugmentor.py:146-152 | the innermost loop computes `OpsFrom` |
| RingAugmentors.AddGroupbys | core/RingAugmentor.py:145-152 | the middle loop computes `GroupbysFrom` |
| RingAugmentors.AddAggregations | core/RingAugmentor.py:144-152 | the outer loop computes `AggsFrom` |
| RingAugmentors.RingAugmentor.constructor | core/RingAugmentor.py:23-27 | an augmentor over the ring and the operation tables |
| RingAugmentors.RingAugmentor.AggregateOne | core/RingAugmentor.py:136-152 | one pass of the loop over related entities computes `OverRelated` and leaves the relationships alone |
| Rings.FirstWhere | core/RingObjects/Ring.py:290 | the first element that matches, IndexError when none does |
| Rings.EnsureEntityExists | core/RingObjects/Ring.py:265-277 | the name itself when some entity has it, otherwise None |
| Rings.EntityByName | core/RingObjects/Ring.py:279-290 | a known name finds the first entity with it; an unknown name becomes None first, so it finds the first entity whose name is missing, and raises IndexError only when there is none |
| Rings.EntityByNameFirst | core/RingObjects/Ring.py:279-290 | a name some entity has finds the first entity with that name |
| Rings.AttributeJoinsCases | core/RingObjects/Ring.py:431-459 | no joins for the id or for an attribute stored in the primary table; otherwise the items of its `source_joins`; a date-suffixed name uses its base attribute; a missing attribute is a KeyError |
| Rings.DateSuffixedJoins | core/RingObjects/Ring.py:447-453 | a date-suffixed attribute has the joins of its base attribute |
| Rings.Ring.GetAttributeJoins | core/RingObjects/Ring.py:431-459 | the loop adding the items one by one gives `AttributeJoins` |
| Rings.TableName | core/RingObjects/Ring.py:461-490 | the primary table for `id` and `reference`, otherwise the source table of the attribute with exactly that name; a missing attribute is a KeyError |
| Rings.CheckRelationshipExists | core/RingObjects/Ring.py:492-498 | true exactly when some relationship goes from `fro` to `to` with the type, or from `to` to `fro` with the type reversed |
| Rings.CheckRelationshipSymmetric | core/RingObjects/Ring.py:492-498 | the check does not depend on the direction it is asked in, once the type is reversed too |
| Rings.CheckRelationshipMirror | core/RingObjects/Ring.py:492-498 | for the four relationship types, reversing is `mirror_rel`: the check holds from the other end with the mirrored type |
| Rings.ConnectedToMembers | core/RingObjects/Ring.py:369-371 | exactly the relationships with the target at one end are kept |
| Rings.ConnectedToAppend | core/RingObjects/Ring.py:369-371 | the filter keeps ring order |
| Rings.Ring.GetConnectedEntityRelationships | core/RingObjects/Ring.py:356-372 | the loop gives `ConnectedTo`, with the current target entity standing in for a missing target |
| Rings.Ring.GetEntityRelationships | core/RingObjects/Ring.py:330-354 | the unnamed one-to-one self relationship, then every connected relationship in ring order (the identity filter drops none) |
| Rings.RelatedNamesMembers | core/RingObjects/Ring.py:229-233 | the related names are the other ends of the relationships that relate something to the entity |
| Rings.RelatedFromOk | core/RingObjects/Ring.py:229-233 | the collection fails exactly when some related name fails to resolve, with that lookup's error |
| Rings.RelatedFromContents | core/RingObjects/Ring.py:229-233 | the collected entities are, in order, what the lookup finds for each related name |
| Rings.RelatedEntitiesMeaning | core/RingObjects/Ring.py:226-235 | raises IndexError exactly when some related name is no entity's name; otherwise one entity per relating relationship, in ring order, the first entity with the other end's name |
| Rings.Ring.GetRelatedEntities | core/RingObjects/Ring.py:226-235 | the loop computes `RelatedEntities` |
| Rings.RelationshipByName | core/RingObjects/Ring.py:303-312 | the first relationship with the name, IndexError when there is none |
| Rings.JoinsAlong | core/RingObjects/Ring.py:382-385 | succeeds exactly when every relationship on the path has its joins looked up; the set is then exactly the joins of the relationships along the path |
| Rings.JoinsAlongAppend | core/RingObjects/Ring.py:382-385 | following two paths one after the other needs the joins of both |
| Rings.JoinsAlongNoneJoin | core/RingObjects/Ring.py:385 | a relationship with no joins on the path raises TypeError |
| Rings.LastNamedIsLast | core/RingObjects/Ring.py:149 | the dictionary comprehension finds the last relationship with the name: no later one has it |
| Rings.MemberJoinsAppend | core/RingObjects/Ring.py:152 | the members' joins are concatenated in member order |
| Rings.DeriveAtShape | core/RingObjects/Ring.py:146-158 | a derived relationship that completes gets the members' joins in list order, the type `walk_rel_path` finds along them, and is bidirectional exactly when every member is; its name, ends and member list stay |
| Rings.DeriveMissingMember | core/RingObjects/Ring.py:149-152 | a member list naming a missing relationship raises KeyError and changes nothing |
| Rings.DeriveFromKeeps | core/RingObjects/Ring.py:145-158 | relationships before the loop position, and relationships that are not derived, are left as they were |
| Rings.DeriveFromNone | core/RingObjects/Ring.py:145-158 | a ring without derived relationships is unchanged |
| Rings.Ring.DeriveRelationships | core/RingObjects/Ring.py:145-161 | the loop completes the derived relationships in place, each seeing the earlier ones completed, as `DeriveFrom` gives, and returns the exception that stopped it |
| Rings.AttributeNamed | core/RingObjects/Ring.py:451-453 | the attribute is found exactly when the entity has it; otherwise KeyError |
| Rings.BaseAttribute | core/RingObjects/Ring.py:448-453 | a date-suffixed name stands for its base, with the suffix after it; any other name for itself |
| Rings.BaseOfDateSuffixed | core/RingObjects/Ring.py:448-453 | a date-suffixed word stands for its base, which stands for itself, and neither is `id` |
| Rings.AttributeJoins | core/RingObjects/Ring.py:431-459 | an unknown entity raises IndexError; `id` has no joins; otherwise none for an attribute of the primary table, else the items of its source joins |
| Rings.ConnectedTo | core/RingObjects/Ring.py:356-372 | no more relationships than the ring has |
| Rings.SelfRelationship | core/RingObjects/Ring.py:342-346 | the unnamed one-to-one relationship of the entity with itself |
| Rings.RelatedNames | core/RingObjects/Ring.py:226-235 | no more names than relationships |
| Rings.Members | core/RingObjects/Ring.py:149-155 | the members are found exactly when every name is a relationship, and are then the last relationship of each name, in order |
| Rings.DeriveFrom | core/RingObjects/Ring.py:145-161 | the loop keeps the number of relationships |
| Rings.Ring.constructor | core/RingObjects/Ring.py:42-59 | a ring holding the given entities, relationships and target entity |
| Rings.Ring.DeriveOne | core/RingObjects/Ring.py:146-158 | one pass of the loop body computes `DeriveAt` |
| Rings.AddAll | core/RingObjects/Ring.py:457-458 | the set built is exactly the items |
| RingCompilers.InOntology | core/RingCompiler.py:352 | only strings can be keys of the ontology; a list or dictionary raises as unhashable |
| RingCompilers.ResolveFromIsBase | core/RingCompiler.py:342-354 | what resolves is never a type of the ontology itself |
| RingCompilers.ResolveOutside | core/RingCompiler.py:352-354 | a type outside the ontology is its own base type |
| RingCompilers.ResolveStep | core/RingCompiler.py:352-353 | a type in the ontology has the base type of its `isa` |
| RingCompilers.ResolveIdempotent | core/RingCompiler.py:342-354 | resolving a base type again changes nothing |
| RingCompilers.UpperOntologyBaseTypes | core/RingCompiler.py:416-423 | in the built-in ontology currency resolves to float and every other type to itself |
| RingCompilers.Position | core/RingCompiler.py:219-223 | the position of a granularity in the ordered fields holds that granularity |
| RingCompilers.ParseGranularity | core/RingCompiler.py:222-223 | `index` succeeds only on the name of one of the seven fields |
| RingCompilers.ParseFieldName | core/RingCompiler.py:222-223 | the name of a field is recognised back as that field |
| RingCompilers.RelevantFields | core/RingCompiler.py:225 | the slice holds the fields from the maximum to the minimum granularity, in order, and is empty when the maximum is finer |
| RingCompilers.DerivedDatetimeNames | core/RingCompiler.py:220-223 | fails exactly when one of the two granularities names no field |
| RingCompilers.DatetimeColumns | core/RingCompiler.py:230-257 | the loop over the relevant fields, then the combined columns, computes `DatetimeNames` |
| RingCompilers.DerivedDatetimeColumns | core/RingCompiler.py:190-259 | the method's column names are `DerivedDatetimeNames` |
| RingCompilers.DatetimeNamesMeaning | core/RingCompiler.py:230-257 | one column per relevant field named after the field (":year", ":only…"), then the combined ones; every name starts with the column's |
| RingCompilers.CombinedSuffixesCases | core/RingCompiler.py:249-257 | ":day" and ":dayofweek" exactly from the year down past the month, ":month" exactly from the year down past the year |
| RingCompilers.DerivedDayNamesRecognised | core/RingCompiler.py:232 | the derived columns down to the day are recognised as date-denominated names by the column pattern of core/api/utils.py:182 |
| RingCompilers.SplitColumn | core/RingCompiler.py:281-282 | unpacking `split('.')` succeeds exactly with one dot, and the two parts joined by the dot give back the text |
| RingCompilers.PathEntry | core/RingCompiler.py:279-285 | an entry kept unpacks into three values whose first two split into table and column |
| RingCompilers.PathEntriesWellFormed | core/RingCompiler.py:277-285 | every kept entry names its join and holds two columns that split |
| RingCompilers.RelationshipListWellFormed | core/RingCompiler.py:274-299 | every entry of the relationship list holds two columns that split |
| RingCompilers.PathRelations | core/RingCompiler.py:277-285 | the loop over one join path computes `PathEntries` |
| RingCompilers.CreateRelationshipList | core/RingCompiler.py:261-299 | the loop over the joins computes `RelationshipList` |
| RingCompilers.RelationPairMirror | core/RingCompiler.py:179-186 | the two relationships of an entry mirror each other, the second named "reverse_" and the first's name |
| RingCompilers.RelationPairFromList | core/RingCompiler.py:173-178 | entries from the relationship list never fail to split; only a missing table or a name that is no string raises |
| RingCompilers.RelationsFromCount | core/RingCompiler.py:173-186 | when nothing raises, two relationships are set per entry, in order |
| RingCompilers.PopulateRelationships | core/RingCompiler.py:163-188 | the loop computes `RelationsFrom` |
| RingDataSources.PathJoin | core/RingObjects/RingDataSource.py:97 | `os.path.join`: an absolute second part replaces the first; otherwise the result ends with it |
| RingDataSources.ConnectionOf | core/RingObjects/RingDataSource.py:94-99 | outside SQLite and CSV the configured connection string is kept as it is |
| RingDataSources.FlatFileConnection | core/RingObjects/RingDataSource.py:95-97 | SQLite and CSV connection strings must be strings and lie under the flat-file directory unless absolute |
| RingDataSources.ParseJoinItemsAppends | core/RingObjects/RingDataSource.py:105-110 | the loop raises exactly when some entry is no dictionary; otherwise one parsed join per entry is appended, in order |
| RingDataSources.ParsedJoins | core/RingObjects/RingDataSource.py:92-110 | a new source parsed from a list of join dictionaries has one join per entry, in order |
| RingDataSources.ConstructJoins | core/RingObjects/RingDataSource.py:117 | one configuration per join, each that join's `construct` |
| RingDataSources.ConstructSourceGet | core/RingObjects/RingDataSource.py:112-118 | each of the four keys holds what `safe_insert` keeps of its field; every other key is absent |
| RingDataSources.SourceJoinsRoundTrip | core/RingObjects/RingDataSource.py:103-118 | parsing the joins `construct` wrote gives back each join after its own round trip; with no joins None is stored and parsing it raises |
| RingDataSources.ListedJoinsParse | core/RingObjects/RingDataSource.py:105-110 | a `joins` list of dictionaries appends one join per entry |
| RingDataSources.ConstructedJoinsField | core/RingObjects/RingDataSource.py:117 | `joins` is always written: the joins' configurations, or None when there are none |
| RingDataSources.TableCheckRaises | core/RingObjects/RingDataSource.py:128-134 | as written, a table's checks raise exactly when it is no dictionary or has no primary key (see Findings) |
| RingDataSources.MissingPrimaryKeyRaises | core/RingObjects/RingDataSource.py:131-133 | as written, a table without a primary key records the message and then raises KeyError (see Findings) |
| RingDataSources.TableCheckIntendedCorrect | core/RingObjects/RingDataSource.py:128-134 | corrected (see Findings): the checks never raise, a table passes exactly when it has a name and a dictionary as primary key, and with a primary key they agree with the code as written |
| RingDataSources.TableCheckAsWrittenDiffers | core/RingObjects/RingDataSource.py:128-134 | the corrected per-table check that `is_valid` uses here records the same messages as the code as written, and raises differently exactly for a dictionary without a primary key (see Findings) |
| RingDataSources.TablesCheckMessages | core/RingObjects/RingDataSource.py:128-134 | without an exception, the tables' messages are those of each table |
| RingDataSources.JoinsValid | core/RingObjects/RingDataSource.py:136 | the reduction over the joins holds exactly when every join records no message |
| RingDataSources.NoTablesRaises | core/RingObjects/RingDataSource.py:125-128 | a source without tables records the message and raises TypeError, as None is not iterable |
| RingDataSources.SourceValidIff | core/RingObjects/RingDataSource.py:120-144 | with a list of tables that are all dictionaries nothing raises (tables without a primary key are recorded, see Findings), and a fresh source is valid exactly when type, connection string, each table's name and dictionary primary key are there and, with joins, every join is valid |
| RingDataSources.CheckTables | core/RingObjects/RingDataSource.py:128-134 | the loop over the tables computes `TablesCheck` with the corrected per-table check |
| RingDataSources.RingDataSource.constructor | core/RingObjects/RingDataSource.py:74-90 | a new source: type sqlite, no connection string or tables, no joins, an empty error set |
| RingDataSources.RingDataSource.Parse | core/RingObjects/RingDataSource.py:92-101 | the new state is `ParseSource` of the old one |
| RingDataSources.RingDataSource.ParseJoins | core/RingObjects/RingDataSource.py:103-110 | the new state is `ParseJoinsOf` of the old one |
| RingDataSources.RingDataSource.Construct | core/RingObjects/RingDataSource.py:112-118 | returns `ConstructSource` of the state |
| RingDataSources.RingDataSource.IsValid | core/RingObjects/RingDataSource.py:120-144 | the error set grows by the messages of `SourceCheck`; the result is its verdict or its exception |
| RingEntities.NicenameDefault | core/RingObjects/RingEntity.py:43 | without `nicename` the nicename is the name, twice |
| RingEntities.MissingIdIsNone | core/RingObjects/RingEntity.py:46 | a missing `id` becomes None, replacing the default |
| RingEntities.ParseItemsNames | core/RingObjects/RingEntity.py:60-64 | without an exception every configured name is appended, in order, and has its attribute |
| RingEntities.ParseItemsKeep | core/RingObjects/RingEntity.py:60-64 | a name that has an attribute keeps one through the loop |
| RingEntities.ParsedAttributeNames | core/RingObjects/RingEntity.py:40-64 | a fresh entity parsed without an exception lists its attributes' names in configuration order |
| RingEntities.AttributesWithType | core/RingObjects/RingEntity.py:98-108 | fails exactly when some attribute has no type list; otherwise holds exactly the attributes whose types include the type |
| RingEntities.AttributesWithTypeOrder | core/RingObjects/RingEntity.py:108 | the selected attributes are no more than all of them and are empty exactly when none has the type |
| RingEntities.SomeAttributeInvalid | core/RingObjects/RingEntity.py:87-89 | the loop fails exactly when some attribute has no type list; otherwise it answers whether some attribute reports itself invalid |
| RingEntities.EntityValidity | core/RingObjects/RingEntity.py:75-96 | the entity is valid exactly when the error set is empty |
| RingEntities.EntityValidIff | core/RingObjects/RingEntity.py:75-96 | a fresh entity is valid exactly when name, table, id and id type are present and every attribute reports itself valid |
| RingEntities.NewParsedAttribute | core/RingObjects/RingEntity.py:61-62 | a new attribute parsed from its entry gives `ParseItem` |
| RingEntities.RingEntity.constructor | core/RingObjects/RingEntity.py:22-38 | a new entity: id `['id']`, id type `['integer']`, no attributes or names, an empty error set |
| RingEntities.RingEntity.Parse | core/RingObjects/RingEntity.py:40-49 | the new state is `ParseEntity` of the old one |
| RingEntities.RingEntity.ParseAttributes | core/RingObjects/RingEntity.py:56-64 | the new state is `ParseAttributesOf` of the old one; an exception keeps the attributes parsed before it |
| RingEntities.RingEntity.ParseMetrics | core/RingObjects/RingEntity.py:51-54 | the new state is `ParseMetricsOf` of the old one |
| RingEntities.RingEntity.GetAttributesWithType | core/RingObjects/RingEntity.py:98-108 | returns `AttributesWithType` of the attributes |
| RingEntities.RingEntity.IsValid | core/RingObjects/RingEntity.py:75-96 | the result is `EntityValidity`; on an exception the field messages stay in the error set |
| RingAttributes.DateParentsCount | core/RingObjects/RingAttribute.py:182-185 | one Datetime parent per StartDate or EndDate type, and nothing else |
| RingAttributes.WithParentsShape | core/RingObjects/RingAttribute.py:176-190 | the original types stay a prefix, Attribute follows, and one Datetime is added per StartDate or EndDate |
| RingAttributes.ParseTypes | core/RingObjects/RingAttribute.py:75 | one type per label, each the label's `from_str`; a label that is no string raises |
| RingAttributes.SourceJoinRequired | core/RingObjects/RingAttribute.py:84-89 | `join_required` holds exactly when the source table differs from the parent entity's, and the joins default to an empty list |
| RingAttributes.SourceNeedsParentTable | core/RingObjects/RingAttribute.py:88 | a source block needs a dictionary parent entity with a `table` key, and raises otherwise |
| RingAttributes.ParseNeedsTypes | core/RingObjects/RingAttribute.py:75 | a missing `type` makes `parse` raise, as iterating None does |
| RingAttributes.ParsedTypes | core/RingObjects/RingAttribute.py:75-76 | a type list parses to the labels' types, then Attribute, then the Datetime parents |
| RingAttributes.UnknownLabelRejects | core/RingObjects/RingAttribute.py:75 | a label `from_str` rejects makes the type list fail |
| RingAttributes.NoMessageIff | core/RingObjects/RingAttribute.py:153-166 | no message is recorded exactly when every checked field is present |
| RingAttributes.AttributeValidity | core/RingObjects/RingAttribute.py:153-174 | raises exactly when the type list is None; valid only when all checked fields are truthy and no message was recorded |
| RingAttributes.FreshValidity | core/RingObjects/RingAttribute.py:153-174 | a fresh attribute with types is valid exactly when the checked fields are all truthy |
| RingAttributes.RingAttribute.constructor | core/RingObjects/RingAttribute.py:22-60 | a new attribute of the given parent entity with every field at its default and an empty error set |
| RingAttributes.RingAttribute.UpdateTypesWithParents | core/RingObjects/RingAttribute.py:176-190 | the new type list is `WithParents` of the old one |
| RingAttributes.RingAttribute.Parse | core/RingObjects/RingAttribute.py:62-93 | on success the fields become what `ParseAttribute` gives; the error set is unchanged |
| RingAttributes.RingAttribute.IsValid | core/RingObjects/RingAttribute.py:153-174 | the error set grows by the messages for the missing fields (only the first three when the type list is None); the result is `AttributeValidity` |
| RingRelationships.ConstructRelationshipGet | core/RingObjects/RingRelationship.py:54-63 | each of the seven keys holds what `safe_insert` keeps of its field; every other key is absent |
| RingRelationships.RelationshipRoundTrip | core/RingObjects/RingRelationship.py:33-63 | parsing what `construct` wrote gives a declared relationship whose fields are what `safe_insert` kept; an empty join list comes back as None |
| RingRelationships.ConstructRelationshipFields | core/RingObjects/RingRelationship.py:54-63 | each field read back from the configuration is what `safe_insert` kept, with no `derived`, `fromName` or `toName` |
| RingRelationships.RelErrorsEmpty | core/RingObjects/RingRelationship.py:65-73 | no message exactly when name and both ends are present and the join list is not empty |
| RingRelationships.ParsedHasJoinsOrNone | core/RingObjects/RingRelationship.py:40-47 | a parsed relationship is never reported for having no joins |
| RingRelationships.DerivedParse | core/RingObjects/RingRelationship.py:40-44 | a derived configuration clears the joins and leaves type and direction as they were |
| RingRelationships.DeclaredDefaults | core/RingObjects/RingRelationship.py:46-49 | a declared relationship without `relation` and `bidirectional` is many-to-many and bidirectional |
| RingRelationships.IdOfStrings | core/RingObjects/RingRelationship.py:52 | with string names the id is from, name, to and the joins' repr, concatenated |
| RingRelationships.RingRelationship.constructor | core/RingObjects/RingRelationship.py:17-31 | a new relationship: no names, an empty join list, many-to-many, bidirectional, an empty error set |
| RingRelationships.RingRelationship.Parse | core/RingObjects/RingRelationship.py:33-52 | the new state is `ParseRelationship` of the old one |
| RingRelationships.RingRelationship.Construct | core/RingObjects/RingRelationship.py:54-63 | returns `ConstructRelationship` of the state |
| RingRelationships.RingRelationship.IsValid | core/RingObjects/RingRelationship.py:65-80 | the error set grows by `RelErrors`, and the relationship is valid exactly when the set is empty |
| RingJoins.ConstructJoinItems | core/RingObjects/RingJoin.py:38-45 | exactly the five keys, in order, each with what `safe_insert` keeps |
| RingJoins.JoinErrorsEmpty | core/RingObjects/RingJoin.py:47-55 | no message exactly when name, both ends and path are present |
| RingJoins.JoinRoundTrip | core/RingObjects/RingJoin.py:30-45 | parsing what `construct` wrote gives back every field as `safe_insert` kept it |
| RingJoins.TruthyFieldsSurvive | core/RingObjects/RingJoin.py:30-45 | name, ends and path that are truthy survive `construct` then `parse` unchanged |
| RingJoins.RingJoin.constructor | core/RingObjects/RingJoin.py:17-28 | a new join: not bidirectional, no fields, an empty error set |
| RingJoins.RingJoin.Parse | core/RingObjects/RingJoin.py:30-36 | the new state is `ParseJoin` of the configuration |
| RingJoins.RingJoin.Construct | core/RingObjects/RingJoin.py:38-45 | returns `ConstructJoin` of the state |
| RingJoins.RingJoin.IsValid | core/RingObjects/RingJoin.py:47-60 | the error set grows by `JoinErrors`, and the join is valid exactly when the set is empty |
| StepExpressors.StepAt | core/Planning/StepExpressor.py:47 | the step is found exactly when the reference is a key of the plan; otherwise KeyError |
| StepExpressors.ExpressorFor | core/Planning/StepExpressor.py:50-65 | exactly collect, return and limit operations have no branch |
| StepExpressors.DispatchCategory | core/Planning/StepExpressor.py:35-65 | a step goes to the branch of the table its operation is in; collect, return and limit steps raise NotImplementedError |
| StepExpressors.DispatchLookups | core/Planning/StepExpressor.py:47-48 | a missing step raises KeyError and an unknown operation the error of `resolve_operation` |
| StepExpressors.ExpressLimitFills | core/Planning/StepExpressor.py:347-356 | the limit fills `{0}`; a limit of "1" leaves the rest of the template, stripped |
| StepExpressors.Direction | core/Planning/StepExpressor.py:323 | "ascending" exactly for the sort type 'asc', "descending" otherwise |
| StepExpressors.SortPhrasesOk | core/Planning/StepExpressor.py:320-325 | the phrases exist exactly when every attribute of a whole pair can be expressed |
| StepExpressors.SortPhrasesValues | core/Planning/StepExpressor.py:320-325 | one phrase per whole pair, phrase k being argument 2k expressed and sorted in the direction of argument 2k+1 |
| StepExpressors.ExpressSortStep | core/Planning/StepExpressor.py:313-325 | the loop over the argument pairs computes `ExpressSort` |
| StepExpressors.HasGroupbyAncestor | core/Planning/StepExpressor.py:149-168 | the early-return loop answers false exactly when some ancestor is a groupby |
| StepExpressors.ExpressAllMeaning | core/Planning/StepExpressor.py:145 | expressing every argument fails exactly when one fails, and otherwise gives each argument's words in order |
| StepExpressors.ExpressAggregationMeaning | core/Planning/StepExpressor.py:135-147 | a groupby with a groupby among its ancestors has no words; otherwise one "grouped by" phrase per argument |
| StepExpressors.FillFromReplaces | core/Planning/StepExpressor.py:337-345 | when every value is available the loop replaces `{i}` by value i for every placeholder below the minimum |
| StepExpressors.FillFromFails | core/Planning/StepExpressor.py:337-345 | the first argument whose value fails makes the loop fail with its error |
| StepExpressors.FillPlaceholders | core/Planning/StepExpressor.py:76-87 | the loop over the placeholders computes `FillFrom` |
| StepExpressors.ExpressArithmeticStep | core/Planning/StepExpressor.py:327-345 | fills the template's first-group placeholders with the referenced steps' words or the literal arguments |
| StepExpressors.FillTemplate | core/Planning/StepExpressor.py:337-345 | on a template whose pieces are text and placeholders, brace-free values give the template with those placeholders filled |
| StepExpressors.ArithmeticAdd | core/Planning/StepExpressor.py:327-345 | `add` between two referenced steps reads "X plus Y" |
| StepExpressors.ExpressRowNumOperation | core/Planning/StepExpressor.py:67-87 | fills the rownum template's placeholders with the words of the sort steps referred to |
| StepExpressors.RowNumArgumentSort | core/Planning/StepExpressor.py:77-81 | an argument that refers to a sort step gives that step's words |
| StepExpressors.RowNumArgumentRejects | core/Planning/StepExpressor.py:82-85 | an argument that is no reference, or refers to a step that is no sort, raises ValueError |
| StepExpressors.RowNumFails | core/Planning/StepExpressor.py:76-87 | the rownum template fails with the error of its one argument |
| StepExpressors.RowNumMeaning | core/Planning/StepExpressor.py:67-87 | the rownum step reads "rank when" and the words of the sort step its argument refers to, or raises ValueError |
| StepExpressors.RetrieveEntityName | core/Planning/StepExpressor.py:120-121 | a `retrieve_entity` step names its entity by its first argument |
| StepExpressors.RetrieveEntityNoAttribute | core/Planning/StepExpressor.py:99-133 | a `retrieve_entity` step names no attribute |
| StepExpressors.RetrieveAttributeName | core/Planning/StepExpressor.py:109-114 | a `retrieve_attribute` step names its attribute by its second argument, or by what that argument names when it is a reference |
| StepExpressors.RetrievalPassesThrough | core/Planning/StepExpressor.py:106-107 | analysis, return and groupby steps name what their first argument names |
| StepExpressors.RetrievalFuel | core/Planning/StepExpressor.py:99-133 | a name found within the recursion limit is the same with any larger limit |
| Placeholders.SlotToken | core/Planning/StepExpressor.py:340 | the placeholder `{i}` is the rendering of slot i and starts with a brace |
| Placeholders.ReplaceBetween | core/Planning/StepExpressor.py:340 | a placeholder between brace-free texts is the only thing `replace` changes |
| Placeholders.ReplaceSlot | core/Planning/StepExpressor.py:340-343 | replacing `{i}` in a rendered template gives the template with its `{i}` pieces filled, and the result stays plain |
| Placeholders.FillSlotRemoves | core/Planning/StepExpressor.py:338-343 | filling slot i leaves no `{i}` and every other slot |
| Placeholders.ReplaceSlotsRender | core/Planning/StepExpressor.py:338-345 | replacing the placeholders one after another renders the template with them all filled, when no value brings in a brace |
| StringOrder.LessTotal | core/Planning/QuestionGenerator.py:368 | string comparison orders two different strings one way and never both |
| StringOrder.Insert | core/Planning/QuestionGenerator.py:368 | insertion adds exactly one element and keeps the others |
| StringOrder.InsertDescending | core/Planning/QuestionGenerator.py:368 | insertion keeps a list descending |
| StringOrder.SortDescending | core/Planning/QuestionGenerator.py:368 | the sorted list is a permutation of the input |
| StringOrder.SortDescendingSorted | core/Planning/QuestionGenerator.py:368 | the sorted list is descending |
| StringOrder.DescendingUnique | core/Planning/QuestionGenerator.py:368 | a descending list is determined by its elements |
| StringOrder.SortDescendingMeaning | core/Planning/QuestionGenerator.py:368 | `sorted(..., reverse=True)` is descending, a permutation, and independent of the input order |
| QuestionGenerators.OneKey | core/Planning/QuestionGenerator.py:455-541 | the name each of the four name checkers compares is the one key of the matching ontology table, so each agrees with the table-based check |
| QuestionGenerators.BooleanFeedingMeaning | core/Planning/QuestionGenerator.py:483-513 | a boolean step is a boolean operation from which a collect step is reached, a filter step one from which a return step is reached; a step that is not boolean is neither |
| QuestionGenerators.PrefixOfKinds | core/Planning/QuestionGenerator.py:370-393 | a sort step reads "for", a limit step "limited to the", an arithmetic step "what is"; none is boolean, so the first branch never takes them |
| QuestionGenerators.PrefixThroughReturn | core/Planning/QuestionGenerator.py:386-387 | a retrieval from a return step takes the prefix of its attribute argument, one level down |
| QuestionGenerators.ReturnFiltersPermuted | core/Planning/QuestionGenerator.py:357-366 | the ancestors' order changes which error is raised, never whether one is, nor the multiset of references collected |
| QuestionGenerators.ReturnFilterAncestorsDeterministic | core/Planning/QuestionGenerator.py:340-368 | the reverse sort makes the result, and whether it fails, independent of the order the set of ancestors is iterated in; the result is descending |
| QuestionGenerators.BooleanArgsSound | core/Planning/QuestionGenerator.py:361-366 | every argument collected is one of the arguments and names a boolean step |
| QuestionGenerators.BooleanArgsComplete | core/Planning/QuestionGenerator.py:361-366 | every argument naming a boolean step is collected, when nothing fails |
| QuestionGenerators.CollectBooleanArgs | core/Planning/QuestionGenerator.py:361-366 | the loop over one return step's arguments computes `BooleanArgs` |
| QuestionGenerators.GetReturnFilterAncestors | core/Planning/QuestionGenerator.py:340-368 | the loops, on the ancestors in the order the set yields them, compute `ReturnFilterAncestors` |
| QuestionGenerators.WithFiltersMeaning | core/Planning/QuestionGenerator.py:161-215 | with no filter anywhere a step reads as its own words; otherwise its words, "for", and one phrase per filter, the ancestors' first in reverse order, then the final return's in the order given; the rownum form at core/Planning/QuestionGenerator.py:311-338 reads the same way |
| QuestionGenerators.IsStepOf | core/Planning/QuestionGenerator.py:399-453 | `is_arithmetic_step`, `is_return_step`, `is_retrieval_step`, `is_analysis_step`: a KeyError exactly for a reference that is no step, otherwise whether the step's operation is a key of the matching ontology table |
| QuestionGenerators.KindOfTables | core/Planning/QuestionGenerator.py:145-154 | a step's table settles which branch expresses it, except that a boolean operation needs a collect step after it |
| QuestionGenerators.FillSkipNone | core/Planning/QuestionGenerator.py:217-254 | arguments whose value is None leave the template as it is |
| QuestionGenerators.BooleanHandled | core/Planning/QuestionGenerator.py:256-309 | exactly the boolean operations have a branch; any other raises NotImplementedError |
| QuestionGenerators.BooleanJoins | core/Planning/QuestionGenerator.py:282-285 | "and" and "or" join the words of every argument by the operation's name; "not" puts "not" before the words of its arguments |
| QuestionGenerators.ComparisonOfLiteral | core/Planning/QuestionGenerator.py:286-307 | a comparison whose first argument is a literal has no words |
| QuestionGenerators.LessThanEqWords | core/Planning/QuestionGenerator.py:286-307 | `lessthan_eq` between a referenced step with words e and a literal v reads "e less than or equal to v" |
| QuestionGenerators.OxfordAll | core/Planning/QuestionGenerator.py:138-159 | the list of expressed arguments fails exactly when one argument fails, and otherwise lists them in order |
| QuestionGenerators.FinalCollectParts | core/Planning/QuestionGenerator.py:120-159 | the statement of a collect step is the Oxford-comma list of its arguments' parts |
| QuestionGenerators.CollectPartPrefix | core/Planning/QuestionGenerator.py:144-154 | a part with words starts with one of the five prefixes |
| QuestionGenerators.LastFromWins | core/Planning/QuestionGenerator.py:87-105 | where every lookup and part succeeds, the last matching argument wins, or nothing is found |
| QuestionGenerators.LastOfKind | core/Planning/QuestionGenerator.py:87-105 | each of the three loops computes `LastFrom` |
| QuestionGenerators.ReturnArgFiltersMeaning | core/Planning/QuestionGenerator.py:99 | the filter list fails exactly when an argument is no step, and otherwise holds the arguments that name boolean steps, in order |
| QuestionGenerators.CombineAsWrittenDropsCollect | core/Planning/QuestionGenerator.py:112-113 | as written, with a limit and no sort the question repeats the limit and does not depend on what is collected (see Findings) |
| QuestionGenerators.CombineKeepsParts | core/Planning/QuestionGenerator.py:108-115 | every part that is there appears, in the order sort, limit, collect; the collect part is always the tail, so the question determines it |
| QuestionGenerators.FinishQuestion | core/Planning/QuestionGenerator.py:118 | the first character upper-cased, the rest stripped, and "?" added; an empty question raises IndexError |
| QuestionGenerators.FinalQuestion | core/Planning/QuestionGenerator.py:68-118 | a question that comes out starts with no lower-case letter and ends in "?"; it puts the parts together by the corrected `Combine` |
| QuestionGenerators.ExpressFinalReturnStep | core/Planning/QuestionGenerator.py:68-118 | the method's loops compute `FinalQuestion` |
| QuestionGenerators.NamedCheckersAgree | core/Planning/QuestionGenerator.py:455-541 | `is_sort_step`, `is_collect_step`, `is_limit_step` and `is_rownum_step` hold exactly for the names "sort", "collect", "limit" and "rownum" |
| QuestionGenerators.AnyOfMeaning | core/Planning/QuestionGenerator.py:483-513 | looking for a step of a table among references fails exactly when one reference is no step, and otherwise answers whether some one of them is in the table |
| QuestionGenerators.PlainPrefix | core/Planning/QuestionGenerator.py:388-393 | the prefix is "what is" exactly for an arithmetic operation and "limited to the" exactly for `limit` |
| QuestionGenerators.PrefixPhrases | core/Planning/QuestionGenerator.py:370-393 | a prefix that comes out is one of the five phrases |
| QuestionGenerators.FillSkipFills | core/Planning/QuestionGenerator.py:217-254 | when no argument's value is None, filling skips nothing and agrees with the step expressor's fill |
| QuestionGenerators.BooleanResolves | core/Planning/QuestionGenerator.py:256-309 | a boolean step is expressed by the branch of the operation its name resolves to |
| StatementGenerators.StatementEnding | core/Planning/StatementGenerator.py:154-160 | the ending is never empty and ends in a full stop |
| StatementGenerators.EndingTakesResult | core/Planning/StatementGenerator.py:154-160 | per plan the ending states the result that replaces "{result}"; in the other modes it is a bare full stop no result goes into |
| StatementGenerators.StatementPrefixPhrases | core/Planning/StatementGenerator.py:162-181 | only "for", "limited to the" and "the" come out |
| StatementGenerators.StatementPrefixOfKinds | core/Planning/StatementGenerator.py:174-181 | a sort reads "for", a limit "limited to the", any other step that is no retrieval "the" |
| StatementGenerators.StatementPrefixThroughReturn | core/Planning/StatementGenerator.py:176-177 | a retrieval from a return step takes the prefix of its attribute argument, one level down |
| StatementGenerators.GetStatementsForCollect | core/Planning/StatementGenerator.py:125-152 | the loop over the collect step's arguments computes `StatementsForCollect` |
| StatementGenerators.StatementPartPrefix | core/Planning/StatementGenerator.py:138-151 | a statement with words starts with one of the three statement prefixes |
| StatementGenerators.Numbered | core/Planning/StatementGenerator.py:114-118 | one numbered statement per statement, the k-th ending in " is {k}" |
| StatementGenerators.NumberStatements | core/Planning/StatementGenerator.py:114-118 | the loop computes `Numbered` |
| StatementGenerators.CollectStatementModes | core/Planning/StatementGenerator.py:99-123 | only the two generation modes put statements together, any other raises ValueError; a single statement comes out as itself per plan and numbered per row |
| StatementGenerators.CombineStatement | core/Planning/StatementGenerator.py:87-94 | without sort and limit the collect part with its leading spaces stripped; otherwise the parts combined by the corrected `Combine` (see Findings) |
| StatementGenerators.FinishStatement | core/Planning/StatementGenerator.py:97 | the first character upper-cased, the rest stripped, and the mode's ending added; an empty statement raises IndexError |
| StatementGenerators.FinalStatement | core/Planning/StatementGenerator.py:58-97 | a statement that comes out starts with no lower-case letter and ends with the mode's ending |
| StatementGenerators.ExpressFinalReturnStep | core/Planning/StatementGenerator.py:58-97 | the method's loops compute `FinalStatement` |
| StatementGenerators.FormatPlain | core/Planning/StatementGenerator.py:239 | `str.format` copies text without braces |
| StatementGenerators.FormatField | core/Planning/StatementGenerator.py:239 | `str.format` replaces a positional field by its argument |
| StatementGenerators.FormatAppend | core/Planning/StatementGenerator.py:239 | formatting a text that formats on its own, then more text, formats the two in turn |
| StatementGenerators.FormatJoin | core/Planning/StatementGenerator.py:239 | joining by a brace-free separator commutes with formatting |
| StatementGenerators.FormatOxfordcomma | core/Planning/StatementGenerator.py:239 | an Oxford-comma list, formatted, is the list of the formatted texts |
| StatementGenerators.FormatNumbered | core/Planning/StatementGenerator.py:117 | a brace-free numbered statement formats to the statement followed by " is " and the value of its own position |
| StatementGenerators.RowTemplateFilled | core/Planning/StatementGenerator.py:114-121 | filling the per-row collect statement with a row by `str.format` puts each value after its own statement |
| StatementGenerators.RowStatementFilled | core/Planning/StatementGenerator.py:202-244 | a row's statement, between brace-free text, puts each of the row's values after its own statement |
| StatementGenerators.FieldOf | core/Planning/StatementGenerator.py:227 | a column past the field names raises IndexError |
| StatementGenerators.UnitOf | core/Planning/StatementGenerator.py:233 | the unit is found exactly when the column has a unit entry that is empty or has two parts, and is the non-empty second part |
| StatementGenerators.WithUnit | core/Planning/StatementGenerator.py:233-234 | the value is kept in front, and the unit follows it exactly when the column has a non-empty one |
| StatementGenerators.IsIdentifierField | core/Planning/StatementGenerator.py:230 | the field must be an attribute (KeyError otherwise) with types; the answer is whether Identifier is among them |
| StatementGenerators.ReferencedField | core/Planning/StatementGenerator.py:269-273 | a column it picks belongs to an entity whose reference is truthy |
| StatementGenerators.EachFromMeaning | core/Planning/StatementGenerator.py:216-244 | one result per item, each the item's own, failing only where an item fails |
| StatementGenerators.FillAnswers | core/Planning/StatementGenerator.py:223-236 | the loop over a row computes its answers column by column |
| StatementGenerators.FillResultOneStatementPerPlan | core/Planning/StatementGenerator.py:246-291 | the loops compute `FilledPerPlan` |
| StatementGenerators.FillResultOneStatementPerRow | core/Planning/StatementGenerator.py:202-244 | the loops compute `FilledPerRow` |
| StatementGenerators.FillResult | core/Planning/StatementGenerator.py:183-200 | the mode's filling, computing `Filled`; an unknown mode raises ValueError |
| StatementGenerators.AnswersOffFields | core/Planning/StatementGenerator.py:227-234 | a column naming no entity field gets its value and unit in both modes |
| StatementGenerators.AnswersOnFields | core/Planning/StatementGenerator.py:228-234 | an identifier field of an entity with a truthy reference is looked up in both modes; any other field keeps its bare value per row and gets its unit per plan |
| StatementGenerators.FillPlanTemplateStatement | core/Planning/StatementGenerator.py:286-289 | a plan statement ending in " is {result}." gets the row answers, joined by commas, where "{result}" stood |
| TemplateStatements.SlotAt | core/Planning/StatementGeneratorTemplateBased.py:66 | a slot found at a position is well formed (a brace, letters, a colon, digits, a brace) and its text occurs there |
| TemplateStatements.SlotsIn | core/Planning/StatementGeneratorTemplateBased.py:66 | every slot `findall` returns is well formed |
| TemplateStatements.NoSlotsWithoutBraces | core/Planning/StatementGeneratorTemplateBased.py:66 | text without an opening brace has no slot |
| TemplateStatements.SlotFoundAtStart | core/Planning/StatementGeneratorTemplateBased.py:66 | a well-formed slot at the start of a text is the slot found there |
| TemplateStatements.SingleSlot | core/Planning/StatementGeneratorTemplateBased.py:66 | a template made of one slot and brace-free text has exactly that slot to fill |
| TemplateStatements.SlotHasWord | core/Planning/StatementGeneratorTemplateBased.py:69-80 | a word occurs in a slot's text exactly when it occurs in the slot's name |
| TemplateStatements.SlotHasBraceWord | core/Planning/StatementGeneratorTemplateBased.py:69-74 | "{Reference" and "{Metric" occur in a slot exactly when its name starts with the word |
| TemplateStatements.FillNamedBySlotName | core/Planning/StatementGeneratorTemplateBased.py:67-82 | which filling a slot gets (the expressed step, the metric name, its filler, or none for result and unit slots) is decided by its name |
| TemplateStatements.FillNamedSlots | core/Planning/StatementGeneratorTemplateBased.py:67-82 | the loop over the slots computes `FillNamedFrom` |
| TemplateStatements.ResultSlots | core/Planning/StatementGeneratorTemplateBased.py:85 | exactly the slots whose text holds "Result" or "Unit" are kept |
| TemplateStatements.SlotNumber | core/Planning/StatementGeneratorTemplateBased.py:102 | the number of a well-formed slot is read without error |
| TemplateStatements.ResultFillerAsWrittenSaysIs | core/Planning/StatementGeneratorTemplateBased.py:162-163 | as written, a lone "False" still reads "is", unlike the corrected filler (see Findings) |
| TemplateStatements.ResultFillerBoolean | core/Planning/StatementGeneratorTemplateBased.py:162-163 | corrected: a lone boolean result reads "is" exactly when it is True and "is not" exactly when it is False |
| TemplateStatements.ResultFillerValue | core/Planning/StatementGeneratorTemplateBased.py:155-173 | outside a lone boolean, and for a column that is no referenced identifier, the filler is the value itself |
| TemplateStatements.UnitFiller | core/Planning/StatementGeneratorTemplateBased.py:175-191 | a referenced identifier column has no unit; otherwise the filler is the column's unit, empty or not |
| TemplateStatements.FillRow | core/Planning/StatementGeneratorTemplateBased.py:101-109 | the loop over the result slots computes `FillResultSlots` |
| TemplateStatements.RepeatSegment | core/Planning/StatementGeneratorTemplateBased.py:91 | the segment between the first pair of repeat tags is non-empty and has no newline; IndexError when there is none |
| TemplateStatements.RepeatSegmentOf | core/Planning/StatementGeneratorTemplateBased.py:91 | in a statement whose only '<' are those of the tags, the segment found is the tagged one |
| TemplateStatements.ReplaceTagged | core/Planning/StatementGeneratorTemplateBased.py:115 | the tagged segment, tags included, is the only text replaced |
| TemplateStatements.ExpandedShape | core/Planning/StatementGeneratorTemplateBased.py:88-115 | with several rows, the tagged segment is replaced by the Oxford-comma list of one filled segment per row, in row order |
| TemplateStatements.ExpandedRows | core/Planning/StatementGeneratorTemplateBased.py:93-112 | the segments are one per row, each the tagged segment filled with that row |
| TemplateStatements.ResultSlotFilled | core/Planning/StatementGeneratorTemplateBased.py:101-109 | a segment with one result or unit slot between brace-free text has that slot, and nothing else, replaced by its filler |
| TemplateStatements.AddFilter | core/Planning/StatementGeneratorTemplateBased.py:134-148 | without filters the statement is unchanged; with one, "for" and the phrase go before a final '.', '?' or '!', or are added with a full stop |
| TemplateStatements.StatementTemplate | core/Planning/StatementGeneratorTemplateBased.py:63 | a name that is no template raises KeyError; a template with a statement template is found |
| TemplateStatements.Generated | core/Planning/StatementGeneratorTemplateBased.py:54-153 | an unknown template raises KeyError; a statement that comes out is non-empty and starts upper-cased, and with a filter ends in '.', '?' or '!'; result slots use the corrected filler (see Findings) |
| TemplateStatements.GenerateStatement | core/Planning/StatementGeneratorTemplateBased.py:54-153 | the method's loops compute `Generated` |

## Left out

Outside the model altogether:

- Flask routes, API keys, process bootstrap, configuration loading and the language-model clients (`core/api/views.py`, `core/satyrnBundler.py`, `core/LanguageGeneration`): they are I/O and network code.
- SQLAlchemy: the bodies of every `sqlalchemy_op`, `core/api/sql_func.py`, `AnalysisEngine.simple_query`'s query assembly and `query.all()`, and `RingCompiler.build_orm`, `build_models`, `populate_models_from_entity`, `column_with_type`, `compile_rings`, `compile_ring` and `currency_converter`. SQL expressions are terms (`terms.dfy`), `complex_query` builds each subquery with a function given as a parameter, and result rows are a parameter. Of `simple_query`, only the field lookups and the sort direction are modelled.
- Floating point: percent change, percentage and division results, and the rounding applied to them, are not computed. Rounding appears only as a wrapper term.
- Files and connections: `RingDataSource.make_connection`, `csv_file_pathway`, `connect_to_extensions`, `load_extension` and `cast_value`. The contents of defaults.json, base_plan_templates.json and upperOntology.json are parameters. The flat-file directory read from the environment is also a parameter.
- `RingAttributes.RingAttribute.Parse`: the part of `parse` that reads defaults.json (RingAttribute.py:95-124: null handling, date granularity, rounding) is not modelled, and those fields keep what they held. When `parse` raises, the model keeps the old fields, where Python keeps the assignments made before the exception.
- `RingAttribute.construct` and `RingEntity.construct`: not modelled. The round trips are proved for joins, relationships and data sources only.
- `Ring.parse`, `parse_config_defaults`, `parse_source`, `parse_entities`, `parse_file_from_path`, `construct`, `write_to_file_with_path`, `is_valid`, `generate_info` and the small getters of `Ring`: file and configuration plumbing. Only the derived-relationship completion of `parse_relationships` is modelled.
- `AnalysisEngine.get_pers` and `get_per_string`: the only call to them is commented out (AnalysisEngine.py:99).
- `OperationOntology.load_plugin_operations`: nothing calls it, so its table is not part of the ontology.
- `AnalysisPlan.display_graph`: plotting.
- `QuestionGenerator.generate_question_from_raw_plan` / `generate_question_from_plan` and `StatementGenerator.generate_statement_template_from_raw_plan` / `generate_statement_template_from_plan`: thin entry points that parse a plan and call the modelled final-return functions.
- The prompt-instruction builders of the blueprints (`build_prompting_instructions`, `build_baseline_prompt_with_facts`, `build_baseline_prompt_with_info_reqs`, `parse`), and `RankingBlueprint.build_baseline_prompt`: language-model prompt text. The benchmark and time-over-time baseline prompts are modelled.
- `RingAugmentors.RingAugmentor.constructor`: `generate_durations_for_entity` is not modelled; its body is `return None` (RingAugmentor.py:74-76).
- `StepExpressors.DispatchCategory`: `express_analysis_step`, `express_retrieval_step` and `express_filter_step` are modelled only as the targets of the dispatch. The words they produce for a referenced step are the `express` parameter (StepExpressor.py) or the fields of a `Words` value (QuestionGenerator.py, StatementGenerator.py).
- `StatementGenerators.FillResult`, `TemplateStatements.Generated`: `StepExpressor.get_reference_values` runs a database query. It is the lookup parameter `ReferenceValues`.
- `print` calls are dropped: QueryBuilderSQR.py:285 and :298, AnalysisEngine.py:217, utils.py:101 and :107, Ring.py:160-161, RingDataSource.py:238 and RingCompiler.py:285. They are side effects only.
- `Operations.DescriptorShape`: descriptors (arities, argument types, templates) are modelled for the sixteen operation classes listed in the module table. The other registered classes are names and categories only; where the plan composer needs their argument types, these come from the parameter `undescribed`.

Abstractions that make a contract weaker than the program:

- `ApiUtils.IsArgReference`: `\w` is ASCII letters, digits and underscore. Python's is Unicode, so a reference with a non-ASCII letter is recognised by the program but not by the model.
- `ApiUtils.DateDenomination`: the same ASCII `\w`.
- `ArgTypes.FromStr`: `str.lower()` is ASCII lower-casing. The same mapping is used for `str.lower()`, `str.upper()` and `str.strip()` throughout (`chars.dfy`).
- `PlanParser.ParseStep`: `shlex.split` is modelled as splitting on space, tab, CR and LF, with single- or double-quoted parts kept in one word without their quotes, and ValueError for an open quote. Backslash escapes and the rest of POSIX shlex are not modelled.
- `BuildQuery.BuildQueryArguments`: `networkx.topological_sort` is not modelled. The global step order is a parameter.
- `QueryBuilderFacts.Local`: the same topological-order parameter.
- `QuestionGenerators.GetReturnFilterAncestors`: `networkx.ancestors` and the order in which its set is iterated are parameters.
- `StepExpressors.HasGroupbyAncestor`: `networkx.ancestors` is a sequence parameter.
- `Rings.JoinsAlong`: the `dijkstra_path` shortest path is a parameter.
- `RingAugmentors.CountOperationsAre`: the iteration order of the operation-name set is a parameter, left to string hashing in Python.
- `RingAugmentors.MetricAggregationOperationsAre`: the same set-order parameter.
- `DatabaseInterfaces.CollectJoins`: `joins_todo` is a set and is modelled as one, so no iteration order is assumed.
- `PlanSplit.SplitOnReturns`: Python's recursion limit is modelled only as RecursionError on a cycle through return steps. A very deep acyclic plan that would exhaust Python's stack succeeds here.
- `RingCompilers.ResolveStep`: a cycle of type references is RecursionError; depth alone never is.
- `StepExpressors.RetrievalFuel`: `get_retrieval_step_name`, the step prefixes of both generators and the filter phrases of `QuestionGenerator` recurse on a `fuel` count. A run out of fuel is RecursionError; the contracts hold for any fuel.
- `QuestionGenerators.PrefixPhrases`: the same `fuel` bound.
- `StatementGenerators.StatementPrefixPhrases`: the same `fuel` bound.
- `BuildQuery.BuildQueryArguments`: the records are fresh objects, one per subplan. That they are pairwise distinct objects is not stated.

Where the model follows the corrected code (see Findings):

- `AnalysisEngines.GetUnits`: takes the outermost alias by number (`OutermostAlias`), not by the string maximum of AnalysisEngine.py:91. The two differ from eleven subplans on.
- `AnalysisEngines.SingleRingAnalysisShape`: the same numeric outermost alias, in place of AnalysisEngine.py:49.
- `QuestionGenerators.FinalQuestion`: a limit without a sort reads limit + ", " + collect (`Combine`), not limit + ", " + limit as QuestionGenerator.py:113 has it.
- `QuestionGenerators.ExpressFinalReturnStep`: the same corrected `Combine`.
- `StatementGenerators.CombineStatement`: the same correction of StatementGenerator.py:92.
- `StatementGenerators.FinalStatement`: the same corrected `CombineStatement`.
- `StatementGenerators.ExpressFinalReturnStep`: the same corrected `CombineStatement`.
- `TemplateStatements.ResultSlotFilled`: a lone False result reads "is not" (`ResultFiller`), where StatementGeneratorTemplateBased.py:163 always says "is".
- `TemplateStatements.FillRow`: the same corrected `ResultFiller`.
- `TemplateStatements.ExpandedRows`: the same corrected `ResultFiller`.
- `TemplateStatements.ExpandedShape`: the same corrected `ResultFiller`.
- `TemplateStatements.Generated`: the same corrected `ResultFiller`.
- `TemplateStatements.GenerateStatement`: the same corrected `ResultFiller`.
- `RingAugmentors.RingAugmentor.GenerateDerivedAttributes`: derived attributes inherit the base isa (`CreateAggregationAttribute`), where RingAugmentor.py:196 leaves `base_isa` None.
- `RingAugmentors.RingAugmentor.GenerateMetricAggregations`: the same inherited base isa.
- `RingAugmentors.RingAugmentor.GenerateCounts`: the same inherited base isa.
- `RingAugmentors.RingAugmentor.AggregateOverRelated`: the same inherited base isa.
- `RingAugmentors.RingAugmentor.AggregateOne`: the same inherited base isa.
- `RingAugmentors.AddOperations`: the same inherited base isa.
- `RingAugmentors.AddGroupbys`: the same inherited base isa.
- `RingAugmentors.AddAggregations`: the same inherited base isa.
- `RingAugmentors.DeriveFor`: the same inherited base isa.
- `RingAugmentors.DerivedFrom`: the same inherited base isa.
- `RingAugmentors.DerivedFromMeaning`: the same inherited base isa.
- `RingAugmentors.AggregateOver`: the same inherited base isa.
- `RingAugmentors.AggsFromIs`: the same inherited base isa.
- `RingAugmentors.OverRelatedMeaning`: the same inherited base isa.
- `RingAugmentors.OverRelatedFromMeaning`: the same inherited base isa.
- `RingDataSources.RingDataSource.IsValid`: a table without a primary key is recorded and the loop goes on (`TableCheck`). RingDataSource.py:133 raises KeyError there instead, skipping the remaining tables and the join check.
- `RingDataSources.CheckTables`: the same corrected per-table check.
- `RingDataSources.SourceValidIff`: the same corrected per-table check.

## Findings

| source | as written | input that shows it | evidently intended | confidence | as-written member | corrected member |
|---|---|---|---|---|---|---|
| core/Analysis/AnalysisEngine.py:49 | the outermost alias is the `max` of the strings after `alias_` | keys `alias_9`, `alias_10`: "9" > "10" as strings, so `alias_9` is taken | the alias with the greatest number, the outermost subquery | not executed | AnalysisEngines.StringMaxMissesAlias10 | AnalysisEngines.OutermostAliasIsGreatest |
| core/Analysis/AnalysisEngine.py:91 | `get_units` picks the outermost alias the same way | keys `alias_9`, `alias_10`: the units of `alias_9`'s select list | the units of the outermost subquery's columns | not executed | AnalysisEngines.StringMaxMissesAlias10 | AnalysisEngines.OutermostOfNumbered |
| core/Planning/QuestionGenerator.py:112-113 | with a limit and no sort the question is `limit + ", " + limit` | sort "", limit "limited to the top 3": the collect part never appears, whatever it is | `limit + ", " + collect`, like the sort-only branch | not executed | QuestionGenerators.CombineAsWrittenDropsCollect | QuestionGenerators.CombineKeepsParts |
| core/Planning/StatementGenerator.py:91-92 | the same `limit + ", " + limit` in the statement template | the same input | `limit + ", " + collect` | not executed | QuestionGenerators.CombineAsWrittenDropsCollect | StatementGenerators.CombineStatement |
| core/Planning/StatementGeneratorTemplateBased.py:163 | `'is' if answer else 'is not'`, with `answer` the non-empty text "True" or "False" | one result "False": the filler is "is" | "is not" for a False result | not executed | TemplateStatements.ResultFillerAsWrittenSaysIs | TemplateStatements.ResultFillerBoolean |
| core/RingAugmentor.py:196 | `new_attribute.baseisa = agg_attr.base_isa` sets a new field, so `base_isa` stays None | averaging an attribute whose base isa is "float": the derived attribute's base isa is None | the base isa inherited, as the comment at RingAugmentor.py:195 says | not executed | RingAugmentors.AsWrittenFloatExample | RingAugmentors.CreateAggregationAttributeMeaning |
| core/RingObjects/RingDataSource.py:131-133 | after recording a missing `primaryKey`, `table['primaryKey']` is read anyway | a table `{"name": "cases"}`: the message is recorded, then KeyError | record the message, skip the type check of the missing key, and go on with the other tables and the joins | not executed | RingDataSources.MissingPrimaryKeyRaises | RingDataSources.TableCheckIntendedCorrect |
