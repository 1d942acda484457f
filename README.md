# konduit-serving core, modelled in Dafny

konduit-serving runs machine-learning pipelines as services. A pipeline is a
chain of steps. Each step takes a `Data` container (an ordered map from keys to
typed values) and produces one. This project models the parts of the
repository that are core logic, each in the form the Java code takes:

- **Values** (`values.dfy`): the `Data` container: lookups that fail on a
  missing key, and `put`, which keeps insertion order.
- **ValueWrappers** (`value_wrappers.dfy`): the mutable `IntValue` and
  `ImageValue` wrappers, as classes with a field.
- **DataUtils** (`data_utils.dfy`): `listEquals`, and the field-inference
  loops `inferField` / `inferListField`, proved against a specification
  function. Their `%s` error messages are spelled out.
- **NumpyConverters** (`numpy_converters.dfy`): the serialized-array ⇄ numpy
  converters, their `canConvert` gates, and the dtype tables both ways.
- **Target** (`target.dfy`): OS and architecture parsing, the architecture
  compatibility relation, `lowerThan`, and `Target.toString`.
- **RequiresDependencies** (`requires_dependencies.dfy`): the annotation
  processor that collects `@RequiresDependencies` lines across rounds and
  writes them on the last round. A dependency coordinate is proved to parse
  back.
- **PythonStepModel** (`python_step.dfy`): the `PythonStep` builder, and the
  runner's `resolveActualCode`. That function appends alias statements to the
  user's code. The project gives those statements a meaning and proves what
  they bind.
- **FrameCapture** (`frame_capture.dfy`): the camera/video step runner. It
  starts its grabber lazily on the first `exec` and `close` tears it down.
- **PyDataModel** (`py_data.dfy`): marshalling between `Data` and guest Python
  objects. This covers the type ladder of `toJava` and `pyListToJava`, the
  type switches of `toPython` and `jListToPython`, and `accepts`/`adapt`.
- **CodeGen** (`code_gen.dfy`): the two text patches the Python client
  generator applies, `applyPythonWrappers` and `patchPythonDefaultValues`.
  Both are chains of `String.replace`, which is modelled exactly. The project
  proves which patterns are gone afterwards and exhibits the ones that can
  survive.

`results.dfy` holds `Option`, `Result` and the exception kinds; a thrown
exception is an `Err` carrying its class and message. `strings.dfy` holds
occurrence, join, split and ASCII case mapping. Java `long`s are the
`int64` subset type. Doubles are kept as their 64-bit patterns, and are only
copied and compared, as `Double.equals` compares them.

`FrameCaptureStepRunner.exec` after `close` starts the grabber again
rather than failing, and the model does the same.

## Model

| member | source | states |
|---|---|---|
| Values.Data.Type | konduit-serving-api/src/main/java/ai/konduit/serving/data/Data.java:42 | type(key) succeeds exactly when the key is present, and then gives the type of the stored value |
| Values.Data.ListType | konduit-serving-api/src/main/java/ai/konduit/serving/data/Data.java:44 | listType(key) succeeds exactly when the key holds a list, and gives its element type |
| Values.Data.GetData | konduit-serving-api/src/main/java/ai/konduit/serving/data/Data.java:55 | getData(key) succeeds exactly when the key holds a nested Data, and returns that Data |
| Values.Data.Put | konduit-serving-api/src/main/java/ai/konduit/serving/data/Data.java:57-66 | put maps the key to the new value and keeps the container well formed; a new key goes last in key order, an existing key keeps its place |
| Values.PutOverwriteRetypes | konduit-serving-api/src/main/java/ai/konduit/serving/data/Data.java:57-66 | putting a key twice keeps the key order of the first put, and the key's type becomes that of the second value |
| Values.Singleton | konduit-serving-io/konduit-serving-camera/src/main/java/ai/konduit/serving/camera/step/capture/FrameCaptureStepRunner.java:85 | Data.singleton holds exactly one key, mapped to the given value |
| ValueWrappers.IntValue.constructor | konduit-serving-api/src/main/java/ai/konduit/serving/data/wrappers/IntValue.java:28-30 | the all-arguments constructor stores the long it is given |
| ValueWrappers.IntValue.AsValue | konduit-serving-api/src/main/java/ai/konduit/serving/data/wrappers/IntValue.java:32-40 | the wrapper stands for an INT64 value whose tag is type() and whose payload is get() |
| ValueWrappers.IntValue.Set | konduit-serving-api/src/main/java/ai/konduit/serving/data/wrappers/IntValue.java:42-45 | after set(v), get() is v and the wrapper stands for INT64 v |
| ValueWrappers.ImageValue.constructor | konduit-serving-api/src/main/java/ai/konduit/serving/data/wrappers/ImageValue.java:29-31 | the constructor stores the (possibly null) image it is given |
| ValueWrappers.ImageValue.AsValue | konduit-serving-api/src/main/java/ai/konduit/serving/data/wrappers/ImageValue.java:33-41 | a wrapper holding an image stands for an IMAGE value with that image; a null image stands for no value |
| ValueWrappers.ImageValue.Set | konduit-serving-api/src/main/java/ai/konduit/serving/data/wrappers/ImageValue.java:43-46 | after set(img), get() is img and a non-null img is what the wrapper stands for |
| DataUtils.ListEquals | konduit-serving-pipeline/src/main/java/ai/konduit/serving/pipeline/util/DataUtils.java:14-40 | different element types or sizes give false; two LIST lists throw UnsupportedOperation; byte-array lists compare by content, and a pair that is not two byte arrays is a ClassCast failure once the loop reaches it; other lists compare as List.equals does, Double.equals identifying all NaNs, and away from NaN that is equality of the contents |
| DataUtils.BytesCompareFrom | konduit-serving-pipeline/src/main/java/ai/konduit/serving/pipeline/util/DataUtils.java:22-32 | the byte-array loop in its order: the first pair that is not two byte arrays fails the cast, the first pair that differs answers false, and true only when the rest of the two lists are equal |
| DataUtils.BytesCompareMeaning | konduit-serving-pipeline/src/main/java/ai/konduit/serving/pipeline/util/DataUtils.java:22-32 | on lists of byte arrays the loop answers whether the contents are equal, and false is answered only for lists that differ |
| DataUtils.JavaListEqualsNoNaN | konduit-serving-pipeline/src/main/java/ai/konduit/serving/pipeline/util/DataUtils.java:36 | when the first list holds no NaN, List.equals is exactly equality of the two lists |
| DataUtils.DoubleEqualsNoNaN | konduit-serving-pipeline/src/main/java/ai/konduit/serving/pipeline/util/DataUtils.java:36 | Double.equals of a non-NaN double is equality of the bits |
| DataUtils.ElementEqualsEquivalence | konduit-serving-pipeline/src/main/java/ai/konduit/serving/pipeline/util/DataUtils.java:36 | element equality is reflexive, symmetric and transitive |
| DataUtils.NaNsEqualZerosDiffer | konduit-serving-pipeline/src/main/java/ai/konduit/serving/pipeline/util/DataUtils.java:36 | two NaNs with different payloads are equal, +0.0 and -0.0 are not |
| DataUtils.CandidatesMembers | konduit-serving-pipeline/src/main/java/ai/konduit/serving/pipeline/util/DataUtils.java:51-64 | a key is a candidate exactly when it is one of the keys and the selector picks it |
| DataUtils.CandidatesPrefix | konduit-serving-pipeline/src/main/java/ai/konduit/serving/pipeline/util/DataUtils.java:51-64 | the candidates among the first n keys are a prefix of all candidates, so the loop meets them in key order |
| DataUtils.CandidatesDistinct | konduit-serving-pipeline/src/main/java/ai/konduit/serving/pipeline/util/DataUtils.java:51-64 | candidates drawn from distinct keys are distinct |
| DataUtils.InferBy | konduit-serving-pipeline/src/main/java/ai/konduit/serving/pipeline/util/DataUtils.java:48-71 | the key loop returns the unique candidate, fails with errNoKeys when there is none, and otherwise fails with the message formatted with the first two candidates |
| DataUtils.SecondCandidate | konduit-serving-pipeline/src/main/java/ai/konduit/serving/pipeline/util/DataUtils.java:55-57 | once the loop has seen two candidates a and b, the result is the multiple-keys error for a and b, whatever the remaining keys hold |
| DataUtils.InferField | konduit-serving-pipeline/src/main/java/ai/konduit/serving/pipeline/util/DataUtils.java:48-71 | inferField selects the keys of type vt, and when lists are allowed also the lists of vt, with the outcome InferBy describes |
| DataUtils.InferListField | konduit-serving-pipeline/src/main/java/ai/konduit/serving/pipeline/util/DataUtils.java:79-95 | inferListField selects the keys holding lists of vt, with the same outcome |
| DataUtils.InferFieldWithPrefix | konduit-serving-pipeline/src/main/java/ai/konduit/serving/pipeline/util/DataUtils.java:42-46 | the prefix overload builds its two messages from the prefix and the type name, then infers as above |
| DataUtils.InferListFieldWithPrefix | konduit-serving-pipeline/src/main/java/ai/konduit/serving/pipeline/util/DataUtils.java:73-77 | the list prefix overload builds its List<vt> messages, then infers as above |
| DataUtils.InferOkIffUnique | konduit-serving-pipeline/src/main/java/ai/konduit/serving/pipeline/util/DataUtils.java:48-71 | inference returns a key exactly when that key is the only one the selector picks |
| DataUtils.InferNoneIffNoneSelected | konduit-serving-pipeline/src/main/java/ai/konduit/serving/pipeline/util/DataUtils.java:67-68 | there are no candidates exactly when no key is picked, and then the error is errNoKeys |
| DataUtils.FormatTwo | konduit-serving-pipeline/src/main/java/ai/konduit/serving/pipeline/util/DataUtils.java:56 | String.format of a two-%s template with %-free text fills the two arguments in order |
| DataUtils.FormatSFree | konduit-serving-pipeline/src/main/java/ai/konduit/serving/pipeline/util/DataUtils.java:56 | formatting copies text without "%" unchanged and goes on with the rest |
| DataUtils.FormatS | konduit-serving-pipeline/src/main/java/ai/konduit/serving/pipeline/util/DataUtils.java:56 | String.format with %s as the only specifier: each %s, left to right, takes the next argument (a definition; FormatSFree and FormatTwo state its meaning) |
| DataUtils.FieldMultipleMessage | konduit-serving-pipeline/src/main/java/ai/konduit/serving/pipeline/util/DataUtils.java:43-56 | with two or more candidates, the field error text is the prefix, the type, "multiple ... fields exist: " and the first two candidate keys |
| DataUtils.ListMultipleMessage | konduit-serving-pipeline/src/main/java/ai/konduit/serving/pipeline/util/DataUtils.java:74-86 | the same for the List<vt> error text |
| NumpyConverters.TypeValueOf | konduit-serving-models/konduit-serving-tensorflow-python/src/main/java/ai/konduit/serving/models/tensorflow/python/NumpyArrayConverters.java:172 | NDArrayType.valueOf returns the constant with exactly that name, and fails with IllegalArgument when no constant has it |
| NumpyConverters.ValueOfName | konduit-serving-models/konduit-serving-tensorflow-python/src/main/java/ai/konduit/serving/models/tensorflow/python/NumpyArrayConverters.java:172 | valueOf of a constant's name gives the constant back |
| NumpyConverters.NumpyDType | konduit-serving-models/konduit-serving-tensorflow-python/src/main/java/ai/konduit/serving/models/tensorflow/python/NumpyArrayConverters.java:73-89 | variable-width types and BFLOAT16 are refused with UnsupportedOperation; FLOAT maps to "float32"; any other type maps to its name in lower case |
| NumpyConverters.ToNumpy | konduit-serving-models/konduit-serving-tensorflow-python/src/main/java/ai/konduit/serving/models/tensorflow/python/NumpyArrayConverters.java:73-125 | the conversion succeeds exactly when the dtype maps (a byte count that does not fit the shape, which numpy refuses, is not modelled); the numpy array has the canonical name of that dtype, and keeps the shape (reshape) and the buffer bytes |
| NumpyConverters.ConvertToNumpy | konduit-serving-models/konduit-serving-tensorflow-python/src/main/java/ai/konduit/serving/models/tensorflow/python/NumpyArrayConverters.java:53-61 | a payload the gate refuses fails with IllegalArgument naming the target class; otherwise the result is the conversion of the serialized array |
| NumpyConverters.ConvertToNumpyFormat | konduit-serving-models/konduit-serving-tensorflow-python/src/main/java/ai/konduit/serving/models/tensorflow/python/NumpyArrayConverters.java:63-71 | the same for a target format, whose text goes into the message |
| NumpyConverters.ElementType | konduit-serving-models/konduit-serving-tensorflow-python/src/main/java/ai/konduit/serving/models/tensorflow/python/NumpyArrayConverters.java:161-176 | float64 gives DOUBLE and float32 gives FLOAT; any other name is taken only when a constant has exactly that name, and gives that constant; otherwise UnsupportedOperation "Unsupported numpy data type: " and the name |
| NumpyConverters.ElementTypeCorrected | konduit-serving-models/konduit-serving-tensorflow-python/src/main/java/ai/konduit/serving/models/tensorflow/python/NumpyArrayConverters.java:161-176 | the intended table: a name other than float64/float32 is taken when its upper-case form names a constant, and gives that constant |
| NumpyConverters.FromNumpy | konduit-serving-models/konduit-serving-tensorflow-python/src/main/java/ai/konduit/serving/models/tensorflow/python/NumpyArrayConverters.java:159-199 | numpy to serialized succeeds exactly when the dtype maps; the result has the mapped element type and keeps the shape and bytes in a direct buffer |
| NumpyConverters.FromNumpyCorrected | konduit-serving-models/konduit-serving-tensorflow-python/src/main/java/ai/konduit/serving/models/tensorflow/python/NumpyArrayConverters.java:159-199 | the same with the intended dtype table |
| NumpyConverters.CopyShape | konduit-serving-models/konduit-serving-tensorflow-python/src/main/java/ai/konduit/serving/models/tensorflow/python/NumpyArrayConverters.java:177-181 | the shape loop fills a new long[] with the shape list, element by element |
| NumpyConverters.ConvertNumpy | konduit-serving-models/konduit-serving-tensorflow-python/src/main/java/ai/konduit/serving/models/tensorflow/python/NumpyArrayConverters.java:159-199 | the imperative convert(NumpyArray) computes FromNumpy |
| NumpyConverters.ConvertToSerialized | konduit-serving-models/konduit-serving-tensorflow-python/src/main/java/ai/konduit/serving/models/tensorflow/python/NumpyArrayConverters.java:139-147 | a payload the gate refuses fails with IllegalArgument; otherwise the result is FromNumpy |
| NumpyConverters.ConvertToSerializedFormat | konduit-serving-models/konduit-serving-tensorflow-python/src/main/java/ai/konduit/serving/models/tensorflow/python/NumpyArrayConverters.java:149-157 | the same for a target format |
| NumpyConverters.GatesDisjoint | konduit-serving-models/konduit-serving-tensorflow-python/src/main/java/ai/konduit/serving/models/tensorflow/python/NumpyArrayConverters.java:44-51 | no payload/target pair is accepted by both converters, and a payload the numpy gate accepts converts unless its dtype is UTF8 or BFLOAT16 |
| NumpyConverters.Int32DoesNotComeBack | konduit-serving-models/konduit-serving-tensorflow-python/src/main/java/ai/konduit/serving/models/tensorflow/python/NumpyArrayConverters.java:83-88 | an INT32 array goes to numpy as "int32", and converting that numpy array back fails |
| NumpyConverters.LowerCaseUnnamed | konduit-serving-models/konduit-serving-tensorflow-python/src/main/java/ai/konduit/serving/models/tensorflow/python/NumpyArrayConverters.java:172 | no constant name starts with a lower-case letter, so valueOf refuses every lower-case numpy name |
| NumpyConverters.RoundTripCorrected | konduit-serving-models/konduit-serving-tensorflow-python/src/main/java/ai/konduit/serving/models/tensorflow/python/NumpyArrayConverters.java:73-199 | with the intended table, every fixed-width type except BFLOAT16 survives serialized → numpy → serialized unchanged (in a direct buffer) |
| NumpyConverters.RoundTripByName | konduit-serving-models/konduit-serving-tensorflow-python/src/main/java/ai/konduit/serving/models/tensorflow/python/NumpyArrayConverters.java:86-87 | the round trip for a type whose lower-case name upper-cases back to it |
| Target.OSValueOf | konduit-serving-build/src/main/java/ai/konduit/serving/build/config/Target.java:40 | OS.valueOf succeeds exactly on a constant's name and returns that constant; otherwise IllegalArgument |
| Target.OSForName | konduit-serving-build/src/main/java/ai/konduit/serving/build/config/Target.java:35-41 | OS.forName gives MACOSX for "mac" and "osx" in any case, and otherwise accepts exactly the strings whose upper case names a constant, returning that constant |
| Target.ArchForName | konduit-serving-build/src/main/java/ai/konduit/serving/build/config/Target.java:44-66 | Arch.forName returns an architecture whose aliases contain the lower-cased input, and null when no architecture has it |
| Target.CompatibleWith | konduit-serving-build/src/main/java/ai/konduit/serving/build/config/Target.java:74-83 | compatibleWith lists the architecture itself first and has no repeats |
| Target.IsCompatibleWith | konduit-serving-build/src/main/java/ai/konduit/serving/build/config/Target.java:85-93 | isCompatibleWith(b) holds exactly when b is in compatibleWith(): the same architecture or a later member of the x86 family |
| Target.CompatibleReflexive | konduit-serving-build/src/main/java/ai/konduit/serving/build/config/Target.java:90-92 | every architecture is compatible with itself |
| Target.CompatibleTransitive | konduit-serving-build/src/main/java/ai/konduit/serving/build/config/Target.java:85-93 | compatibility is transitive |
| Target.CompatibleAntisymmetric | konduit-serving-build/src/main/java/ai/konduit/serving/build/config/Target.java:85-93 | x86 code runs on avx2 but not the reverse: compatibility between different architectures is one-way |
| Target.LowerThan | konduit-serving-build/src/main/java/ai/konduit/serving/build/config/Target.java:95-104 | lowerThan fails with IllegalState for incompatible architectures, and is true exactly for compatible, different ones |
| Target.LowerThanStrictOrder | konduit-serving-build/src/main/java/ai/konduit/serving/build/config/Target.java:95-104 | lowerThan is irreflexive and transitive, orders x86 < avx2 < avx512, and the reverse of a true comparison fails |
| Target.Target.ToString | konduit-serving-build/src/main/java/ai/konduit/serving/build/config/Target.java:139-142 | "Target(os,arch)" without a device and "Target(os,arch,device)" with one |
| Target.ToStringInjective | konduit-serving-build/src/main/java/ai/konduit/serving/build/config/Target.java:139-142 | two targets with the same toString() are the same target: the OS name runs to the first comma, the architecture name to the next comma or the closing parenthesis, and the device text is the rest |
| Target.FieldsSplit | konduit-serving-build/src/main/java/ai/konduit/serving/build/config/Target.java:139-142 | "Target(" followed by two comma-free fields and a suffix that starts with "," or ")" splits back into those fields and that suffix |
| Target.OSForNameIgnoresCase | konduit-serving-build/src/main/java/ai/konduit/serving/build/config/Target.java:35-41 | OS.forName gives the same answer for a string and its upper case |
| Target.ArchForNameIgnoresCase | konduit-serving-build/src/main/java/ai/konduit/serving/build/config/Target.java:44-45 | Arch.forName gives the same answer for a string and its upper case |
| Target.OSForNameRoundTrip | konduit-serving-build/src/main/java/ai/konduit/serving/build/config/Target.java:34-41 | forName of a constant's name gives the constant back |
| Target.OSParsesBack | konduit-serving-build/src/main/java/ai/konduit/serving/build/config/Target.java:40 | a constant's name that is not three letters long parses back without the MAC/OSX shortcut |
| Target.AliasesDisjoint | konduit-serving-build/src/main/java/ai/konduit/serving/build/config/Target.java:45-62 | no alias string belongs to two architectures, so forName is well defined |
| Strings.Upper | konduit-serving-build/src/main/java/ai/konduit/serving/build/config/Target.java:40 | toUpperCase keeps the length and upper-cases each character |
| Strings.Lower | konduit-serving-build/src/main/java/ai/konduit/serving/build/config/Target.java:45 | toLowerCase keeps the length and lower-cases each character |
| RequiresDependencies.DepStrings | konduit-serving-metadata/konduit-serving-annotation/src/main/java/ai/konduit/serving/annotation/module/RequiresDependenciesProcessor.java:74-83 | one dependency string per dependency |
| RequiresDependencies.DepStringsAt | konduit-serving-metadata/konduit-serving-annotation/src/main/java/ai/konduit/serving/annotation/module/RequiresDependenciesProcessor.java:74-83 | dependency string i is process() of dependency i |
| RequiresDependencies.DepStringsLoop | konduit-serving-metadata/konduit-serving-annotation/src/main/java/ai/konduit/serving/annotation/module/RequiresDependenciesProcessor.java:74-83 | the dependency loop builds the dependency strings, in order |
| RequiresDependencies.RequiresLines | konduit-serving-metadata/konduit-serving-annotation/src/main/java/ai/konduit/serving/annotation/module/RequiresDependenciesProcessor.java:70-94 | one line per @Requires group |
| RequiresDependencies.RequiresLinesAt | konduit-serving-metadata/konduit-serving-annotation/src/main/java/ai/konduit/serving/annotation/module/RequiresDependenciesProcessor.java:70-94 | line i is the group of @Requires i: its dependency strings joined in [..] or {..} |
| RequiresDependencies.GroupDelimiters | konduit-serving-metadata/konduit-serving-annotation/src/main/java/ai/konduit/serving/annotation/module/RequiresDependenciesProcessor.java:85-91 | a group line opens with "[" exactly when all of its dependencies are required, and closes with the matching bracket or brace |
| RequiresDependencies.ProcessDependency | konduit-serving-metadata/konduit-serving-annotation/src/main/java/ai/konduit/serving/annotation/module/RequiresDependenciesProcessor.java:102-119 | a dependency string is quoted, and is "g:a:v" in quotes when there are no classifiers |
| RequiresDependencies.RequiresDependenciesProcessor.constructor | konduit-serving-metadata/konduit-serving-annotation/src/main/java/ai/konduit/serving/annotation/module/RequiresDependenciesProcessor.java:39-40 | a new processor has no module name, nothing to write and nothing written |
| RequiresDependencies.RequiresDependenciesProcessor.Process | konduit-serving-metadata/konduit-serving-annotation/src/main/java/ai/konduit/serving/annotation/module/RequiresDependenciesProcessor.java:43-100 | the last round without a module name fails with IllegalState; with one, it writes the pending lines, each prefixed by the module name. Any other round takes the first @ModuleInfo name if none is set and appends that round's lines |
| RequiresDependencies.RequiresDependenciesProcessor.AddRound | konduit-serving-metadata/konduit-serving-annotation/src/main/java/ai/konduit/serving/annotation/module/RequiresDependenciesProcessor.java:61-95 | a round appends the lines of each annotated type, in order |
| RequiresDependencies.RequiresDependenciesProcessor.AddRequires | konduit-serving-metadata/konduit-serving-annotation/src/main/java/ai/konduit/serving/annotation/module/RequiresDependenciesProcessor.java:70-94 | one type's groups append their lines, in order |
| RequiresDependencies.RequiresDependenciesProcessor.WriteFile | konduit-serving-metadata/konduit-serving-annotation/src/main/java/ai/konduit/serving/annotation/module/RequiresDependenciesProcessor.java:121-131 | nothing is written when there is nothing to write; otherwise one file of "moduleName,line" entries |
| RequiresDependencies.Prefixed | konduit-serving-metadata/konduit-serving-annotation/src/main/java/ai/konduit/serving/annotation/module/RequiresDependenciesProcessor.java:126-129 | each written entry is the module name, a comma and the pending line at the same position |
| RequiresDependencies.ProcessDependencyRoundTrip | konduit-serving-metadata/konduit-serving-annotation/src/main/java/ai/konduit/serving/annotation/module/RequiresDependenciesProcessor.java:102-119 | a dependency string parses back to its coordinates and classifiers: none, one, all-of in [..] or any-of in {..} |
| RequiresDependencies.GroupedRoundTrip | konduit-serving-metadata/konduit-serving-annotation/src/main/java/ai/konduit/serving/annotation/module/RequiresDependenciesProcessor.java:108-116 | several classifiers come back as the all-of or any-of group the requirement chose |
| RequiresDependencies.SingleRoundTrip | konduit-serving-metadata/konduit-serving-annotation/src/main/java/ai/konduit/serving/annotation/module/RequiresDependenciesProcessor.java:106-107 | a single classifier comes back as itself, whatever the requirement |
| RequiresDependencies.ParseThree | konduit-serving-metadata/konduit-serving-annotation/src/main/java/ai/konduit/serving/annotation/module/RequiresDependenciesProcessor.java:103-105 | a quoted g:a:v parses back to g, a and v with no classifier |
| RequiresDependencies.BracketedRoundTrip | konduit-serving-metadata/konduit-serving-annotation/src/main/java/ai/konduit/serving/annotation/module/RequiresDependenciesProcessor.java:110-115 | a bracketed comma-joined classifier list splits back into the same classifiers |
| PythonStepModel.Builder.constructor | konduit-serving-python-new/src/main/java/ai/konduit/serving/PythonStep.java:51-54 | a new builder has no code, setup name or run name |
| PythonStepModel.Builder.Code | konduit-serving-python-new/src/main/java/ai/konduit/serving/PythonStep.java:56-59 | code(c) sets the code, leaves the other fields and returns the same builder |
| PythonStepModel.Builder.SetupMethod | konduit-serving-python-new/src/main/java/ai/konduit/serving/PythonStep.java:61-64 | setupMethod(n) sets the setup name only and returns the same builder |
| PythonStepModel.Builder.RunMethod | konduit-serving-python-new/src/main/java/ai/konduit/serving/PythonStep.java:66-69 | runMethod(n) sets the run name only and returns the same builder |
| PythonStepModel.Builder.Build | konduit-serving-python-new/src/main/java/ai/konduit/serving/PythonStep.java:71-73 | build() makes a step from the three fields |
| PythonStepModel.AliasProgram | konduit-serving-python-new/src/main/java/ai/konduit/serving/PythonStep.java:96-109 | the suffix always ends with the output wrapper, and the wrapper never calls "run" itself |
| PythonStepModel.RenderAliasProgram | konduit-serving-python-new/src/main/java/ai/konduit/serving/PythonStep.java:96-109 | the suffix's text is the setup alias (when setup is named otherwise), the runOrig copy (when run is named "run"), then the wrapper line |
| PythonStepModel.ResolveActualCode | konduit-serving-python-new/src/main/java/ai/konduit/serving/PythonStep.java:96-109 | the code is the user's code followed by the suffix, so the user's code is a prefix, followed by "setup = f" when setup is renamed |
| PythonStepModel.EndsWithWrapper | konduit-serving-python-new/src/main/java/ai/konduit/serving/PythonStep.java:107-108 | the resolved code ends with the "run = lambda input: {'output':f(input)}" line |
| PythonStepModel.AliasProgramMeaning | konduit-serving-python-new/src/main/java/ai/konduit/serving/PythonStep.java:96-109 | after the suffix runs, "setup" calls the setup function and "run" calls the run function with its result wrapped. The exception is a run function named "setup" while setup is named otherwise |
| PythonStepModel.ExecSetup | konduit-serving-python-new/src/main/java/ai/konduit/serving/PythonStep.java:99-101 | the setup alias binds "setup" to the setup function exactly when the names differ |
| PythonStepModel.ExecRunOrig | konduit-serving-python-new/src/main/java/ai/konduit/serving/PythonStep.java:102-105 | when run is named "run", runOrig is bound to the user's run before the wrapper replaces it |
| PythonStepModel.RunNamedSetupCallsSetupFunction | konduit-serving-python-new/src/main/java/ai/konduit/serving/PythonStep.java:99-107 | with setup "init" and run "setup", the wrapper ends up calling the setup function: the exception above does happen |
| PythonStepModel.Runner.constructor | konduit-serving-python-new/src/main/java/ai/konduit/serving/PythonStep.java:111-115 | the runner keeps the step and resolves the code from it |
| PythonStepModel.Runner.GetPipelineStep | konduit-serving-python-new/src/main/java/ai/konduit/serving/PythonStep.java:125-128 | the runner reports the step it was made from |
| PythonStepModel.Create | konduit-serving-python-new/src/main/java/ai/konduit/serving/PythonStep.java:83-87 | create fails with IllegalState naming the class for a step that is not a PythonStep, and with a null-dereference failure when a method name is missing; otherwise, the step's `PythonJob` being assumed to build, it returns a new runner for the step |
| PythonStepModel.CanRun | konduit-serving-python-new/src/main/java/ai/konduit/serving/PythonStep.java:79-81 | canRun accepts exactly the PythonStep configurations (a definition; Create fails for any other step) |
| PythonStepModel.Runner.Close | konduit-serving-python-new/src/main/java/ai/konduit/serving/PythonStep.java:130-131 | close releases nothing and changes no state of the runner |
| FrameCapture.FrameCaptureStepRunner.FromCamera | konduit-serving-io/konduit-serving-camera/src/main/java/ai/konduit/serving/camera/step/capture/FrameCaptureStepRunner.java:43-49 | a camera runner keeps the step and its output key, and starts uninitialised with no grabber |
| FrameCapture.FrameCaptureStepRunner.FromVideo | konduit-serving-io/konduit-serving-camera/src/main/java/ai/konduit/serving/camera/step/capture/FrameCaptureStepRunner.java:51-57 | the same for a video runner |
| FrameCapture.FrameCaptureStepRunner.GetPipelineStep | konduit-serving-io/konduit-serving-camera/src/main/java/ai/konduit/serving/camera/step/capture/FrameCaptureStepRunner.java:72-75 | the runner reports the step it was built from |
| FrameCapture.FrameCaptureStepRunner.InitOpenCVFrameGrabber | konduit-serving-io/konduit-serving-camera/src/main/java/ai/konduit/serving/camera/step/capture/FrameCaptureStepRunner.java:91-107 | init creates a camera grabber; a failed start throws "Failed to start video frame grabber" and leaves the runner uninitialised |
| FrameCapture.FrameCaptureStepRunner.InitFFmpegFrameGrabber | konduit-serving-io/konduit-serving-camera/src/main/java/ai/konduit/serving/camera/step/capture/FrameCaptureStepRunner.java:109-121 | the same with a file grabber |
| FrameCapture.FrameCaptureStepRunner.Exec | konduit-serving-io/konduit-serving-camera/src/main/java/ai/konduit/serving/camera/step/capture/FrameCaptureStepRunner.java:77-89 | exec initialises on first use; a grabbed frame is returned as a one-key Data under the output key, and a failed grab throws "Error getting frame" |
| FrameCapture.FrameCaptureStepRunner.Close | konduit-serving-io/konduit-serving-camera/src/main/java/ai/konduit/serving/camera/step/capture/FrameCaptureStepRunner.java:59-70 | close of an initialised runner stops and closes the grabber and logs a warning when either fails; the runner ends uninitialised either way |
| FrameCapture.CloseThenExec | konduit-serving-io/konduit-serving-camera/src/main/java/ai/konduit/serving/camera/step/capture/FrameCaptureStepRunner.java:60-80 | exec after close starts the grabber again and returns the next frame |
| FrameCapture.RetryAfterFailedStart | konduit-serving-io/konduit-serving-camera/src/main/java/ai/konduit/serving/camera/step/capture/FrameCaptureStepRunner.java:79-106 | after a failed start, the next exec tries to start again and can succeed |
| PyDataModel.Classify | konduit-serving-python-new/src/main/java/ai/konduit/serving/PyData.java:164-200 | the branch chosen for an object is one whose test the object passes, a bool passing the int test; as written the bool branch is never chosen |
| PyDataModel.ClassifyIsFirstMatch | konduit-serving-python-new/src/main/java/ai/konduit/serving/PyData.java:164-200 | Classify is the first branch whose isinstance test passes, over the ladder as written (int before bool) and over the corrected one (bool first) |
| PyDataModel.ScalarToJava | konduit-serving-python-new/src/main/java/ai/konduit/serving/PyData.java:164-185 | a scalar converter accepts exactly the objects its branch tests for, and gives a value of that branch's type; INT reads a bool as 1 or 0 |
| PyDataModel.BoxFrom | konduit-serving-python-new/src/main/java/ai/konduit/serving/PyData.java:186-193 | a bounding box is read only from an object's attributes (as written, label with toString(), which gives str() of a str, None, bool or int label, and probability with toDouble(); corrected, None is null) |
| PyDataModel.DigitsRoundTrip | konduit-serving-python-new/src/main/java/ai/konduit/serving/PyData.java:190 | the decimal digits str() prints for a non-negative int label read back as that int |
| PyDataModel.IntStrInjective | konduit-serving-python-new/src/main/java/ai/konduit/serving/PyData.java:190 | str() of an int label determines the int, so distinct int labels give distinct label strings |
| PyDataModel.ValueToJava | konduit-serving-python-new/src/main/java/ai/konduit/serving/PyData.java:164-200 | a converted value's type is the type of the branch the ladder chose, so as written a guest bool becomes an INT64 |
| PyDataModel.ListToJava | konduit-serving-python-new/src/main/java/ai/konduit/serving/PyData.java:77-150 | an empty list fails with "Cannot infer type from empty list."; the element type is the branch of the first item, and every item is converted (so [1, True] gives INT64 items, and in a list led by a list a str item is the list of its characters) |
| PyDataModel.ListItemThroughLenGet | konduit-serving-python-new/src/main/java/ai/konduit/serving/PyData.java:137-142 | in a list led by a list, each item goes through pyListToJava by len() and get(i): a str item converts as the list of its one-character strs, a memoryview item as the list of its bytes as ints, so an empty one fails with "Cannot infer type from empty list."; an item neither reads is refused |
| PyDataModel.StrItemOfNestedList | konduit-serving-python-new/src/main/java/ai/konduit/serving/PyData.java:137-142 | [[1, 2], "ab"] converts to the LIST [[1, 2], ["a", "b"]] |
| PyDataModel.ElementConversions | konduit-serving-python-new/src/main/java/ai/konduit/serving/PyData.java:82-149 | one conversion per list item, each by the first item's branch |
| PyDataModel.DataToJava | konduit-serving-python-new/src/main/java/ai/konduit/serving/PyData.java:152-204 | only a guest mapping converts to Data |
| PyDataModel.Converted | konduit-serving-python-new/src/main/java/ai/konduit/serving/PyData.java:156-163 | each key comes with the conversion of its own value, in keys() order |
| PyDataModel.ToJava | konduit-serving-python-new/src/main/java/ai/konduit/serving/PyData.java:152-204 | the key loop of toJava computes DataToJava |
| PyDataModel.ConvertValue | konduit-serving-python-new/src/main/java/ai/konduit/serving/PyData.java:164-200 | the imperative ladder computes ValueToJava |
| PyDataModel.PyListToJava | konduit-serving-python-new/src/main/java/ai/konduit/serving/PyData.java:77-150 | the list loops compute ListToJava |
| PyDataModel.ConvertElement | konduit-serving-python-new/src/main/java/ai/konduit/serving/PyData.java:82-149 | one loop body computes ElementToJava |
| PyDataModel.ElementToJava | konduit-serving-python-new/src/main/java/ai/konduit/serving/PyData.java:82-149 | an item read by a branch of pyListToJava is a value of that branch's type; in the int branch a bool item reads as 1 or 0; in the list branch a str or memoryview item is read through len() and get(i), as ListItemThroughLenGet states |
| PyDataModel.PutAll | konduit-serving-python-new/src/main/java/ai/konduit/serving/PyData.java:158-200 | toJava's key loop as a function of the first n keys: it stops at the first key that is not a str or value that does not convert (a definition; PutAllOk, PutAllValid and PutAllBuilds state its meaning) |
| PyDataModel.PutAllOk | konduit-serving-python-new/src/main/java/ai/konduit/serving/PyData.java:158-200 | the loop gets through n keys exactly when each is a str and each value converts |
| PyDataModel.PutAllValid | konduit-serving-python-new/src/main/java/ai/konduit/serving/PyData.java:158-200 | the Data the loop builds is well formed |
| PyDataModel.PutAllBuilds | konduit-serving-python-new/src/main/java/ai/konduit/serving/PyData.java:158-200 | with distinct keys, the loop's Data has the keys in order, each mapped to its converted value |
| PyDataModel.ToJavaMeaning | konduit-serving-python-new/src/main/java/ai/konduit/serving/PyData.java:156-200 | toJava of a mapping succeeds exactly when every key is a str and every value converts by the ladder of the chosen reading; the result has the keys in order, each with its value's conversion |
| PyDataModel.ListToJavaMeaning | konduit-serving-python-new/src/main/java/ai/konduit/serving/PyData.java:82-149 | a non-empty list converts exactly when every item converts by the first item's branch, a bool item converting in an int list; the result keeps the order |
| PyDataModel.BoxListFailsAsWritten | konduit-serving-python-new/src/main/java/ai/konduit/serving/PyData.java:125-136 | as written, a list whose first item is a BoundingBox fails: the attributes are read from the list itself |
| PyDataModel.BoxListCorrected | konduit-serving-python-new/src/main/java/ai/konduit/serving/PyData.java:125-136 | reading each item's attributes, a list of readable bounding boxes converts to those boxes |
| PyDataModel.KindOfType | konduit-serving-python-new/src/main/java/ai/konduit/serving/PyData.java:164-200 | every value type has a branch of the corrected ladder that produces it; as written, BOOLEAN has none (Classify never picks the bool branch) |
| PyDataModel.LeafRoundTrip | konduit-serving-python-new/src/main/java/ai/konduit/serving/PyData.java:230-250 | a scalar value sent to the guest is classified by its own branch of the corrected ladder and read back unchanged, a boolean included |
| PyDataModel.BoxRoundTrip | konduit-serving-python-new/src/main/java/ai/konduit/serving/PyData.java:242-247 | as written, a box sent to the guest reads back unchanged when it has label and probability; a null label, sent as None, reads back as "None", and a null probability, sent as None, fails |
| PyDataModel.BoxRoundTripCorrected | konduit-serving-python-new/src/main/java/ai/konduit/serving/PyData.java:186-193 | reading None as null, every box sent to the guest reads back unchanged |
| PyDataModel.BoxWithGlobals | konduit-serving-python-new/src/main/java/ai/konduit/serving/PyData.java:242-247 | a box is built only when the guest defines BoundingBox, and then from the box's six fields |
| PyDataModel.ItemToPython | konduit-serving-python-new/src/main/java/ai/konduit/serving/PyData.java:30-66 | in a STRING, INT64, DOUBLE or BOOLEAN list, any primitive item converts by its own type, with no cast; in a BYTES, NDARRAY, BOUNDING_BOX or IMAGE list, an item of another type fails the cast, and an item of the list's type converts (a box only when the guest defines BoundingBox) |
| PyDataModel.ListToPython | konduit-serving-python-new/src/main/java/ai/konduit/serving/PyData.java:27-75 | lists of lists or of Data are refused, since LIST falls through to the error; otherwise the result is a guest list with one entry per item |
| PyDataModel.ItemConversions | konduit-serving-python-new/src/main/java/ai/konduit/serving/PyData.java:34-66 | one conversion per item, in order |
| PyDataModel.FindKey | konduit-serving-python-new/src/main/java/ai/konduit/serving/PyData.java:228-229 | the guest data's lookup finds a position holding the key, or reports that none of the first n does |
| PyDataModel.SetItemMeaning | konduit-serving-python-new/src/main/java/ai/konduit/serving/PyData.java:228-229 | setting a key the guest data does not hold appends it |
| PyDataModel.DataToPython | konduit-serving-python-new/src/main/java/ai/konduit/serving/PyData.java:225-262 | the result of toPython is a guest mapping |
| PyDataModel.KeyConversions | konduit-serving-python-new/src/main/java/ai/konduit/serving/PyData.java:227-259 | each key comes with the conversion of its own value, in key order |
| PyDataModel.KeyToPython | konduit-serving-python-new/src/main/java/ai/konduit/serving/PyData.java:227-258 | a key that holds no value fails at type(key) |
| PyDataModel.SwitchToPython | konduit-serving-python-new/src/main/java/ai/konduit/serving/PyData.java:229-258 | the switch of toPython as written, LIST falling into DATA (a definition; SwitchCorrected and ListKeyFailsAsWritten state what it does) |
| PyDataModel.SetAll | konduit-serving-python-new/src/main/java/ai/konduit/serving/PyData.java:227-259 | toPython's key loop as a function of the first n keys: it stops at the first value that does not convert (a definition; SetAllOk and SetAllSets state its meaning) |
| PyDataModel.Interpreter.constructor | konduit-serving-python-new/src/main/java/ai/konduit/serving/PyData.java:209 | the interpreter starts with the given globals |
| PyDataModel.Interpreter.ToPython | konduit-serving-python-new/src/main/java/ai/konduit/serving/PyData.java:207-263 | a missing Data class is defined from the resource, whose absence is "Error reading pydata.py"; if the resource does not define it, the second lookup fails with a KeyError; otherwise the result is DataToPython |
| PyDataModel.Interpreter.FillData | konduit-serving-python-new/src/main/java/ai/konduit/serving/PyData.java:225-262 | the key loop computes DataToPython |
| PyDataModel.Interpreter.ConvertKey | konduit-serving-python-new/src/main/java/ai/konduit/serving/PyData.java:229-258 | the switch body computes KeyToPython |
| PyDataModel.Interpreter.JListToPython | konduit-serving-python-new/src/main/java/ai/konduit/serving/PyData.java:27-75 | jListToPython computes ListToPython |
| PyDataModel.Interpreter.ConvertItems | konduit-serving-python-new/src/main/java/ai/konduit/serving/PyData.java:34-66 | the item loop collects the item conversions, stopping at the first failure |
| PyDataModel.Adapt | konduit-serving-python-new/src/main/java/ai/konduit/serving/PyData.java:265-276 | adapt returns a Data unchanged, exactly for the objects accepts takes; anything else fails with "Cannot cast ... to Data." |
| PyDataModel.Accepts | konduit-serving-python-new/src/main/java/ai/konduit/serving/PyData.java:265-268 | accepts holds exactly for Data objects (a definition; Adapt succeeds exactly when it holds) |
| PyDataModel.SetAllOk | konduit-serving-python-new/src/main/java/ai/konduit/serving/PyData.java:227-259 | the loop gets through n keys exactly when each converts |
| PyDataModel.SetAllSets | konduit-serving-python-new/src/main/java/ai/konduit/serving/PyData.java:227-259 | with distinct keys, the guest entries are the keys in order, each with its converted value |
| PyDataModel.DataToPythonMeaning | konduit-serving-python-new/src/main/java/ai/konduit/serving/PyData.java:226-259 | toPython succeeds exactly when every key converts; the mapping has one entry per key, in key order, with that key's conversion |
| PyDataModel.ListKeyFailsAsWritten | konduit-serving-python-new/src/main/java/ai/konduit/serving/PyData.java:251-254 | as written, a Data holding a list fails: LIST falls into the DATA case, which reads the list as a Data |
| PyDataModel.ListKeyCorrected | konduit-serving-python-new/src/main/java/ai/konduit/serving/PyData.java:251-254 | with a break after the LIST case, a list key converts to its guest list |
| PyDataModel.ItemRoundTrip | konduit-serving-python-new/src/main/java/ai/konduit/serving/PyData.java:34-66 | with the corrections, a list item sent to the guest comes back unchanged by the matching list branch, a boolean or a box with null fields included |
| PyDataModel.ListRoundTrip | konduit-serving-python-new/src/main/java/ai/konduit/serving/PyData.java:27-150 | with the corrections, a non-empty list of scalars or boxes comes back with the same items and element type, BOOLEAN lists included |
| PyDataModel.SwitchCorrected | konduit-serving-python-new/src/main/java/ai/konduit/serving/PyData.java:229-258 | the corrected switch sends each type to its own converter: box, list, nested Data or scalar |
| PyDataModel.KeyRoundTrip | konduit-serving-python-new/src/main/java/ai/konduit/serving/PyData.java:229-258 | with the corrections, each value of a Data built from scalars, boxes, lists of those and nested Data comes back unchanged |
| PyDataModel.DataRoundTrip | konduit-serving-python-new/src/main/java/ai/konduit/serving/PyData.java:152-262 | with the corrections (bool before int, None read as null, a break after LIST), such a Data survives toPython followed by toJava unchanged |
| PyDataModel.BooleanSent | konduit-serving-python-new/src/main/java/ai/konduit/serving/PyData.java:229-250 | toPython sends a one-key Data holding a boolean as a mapping with that key and a guest bool |
| PyDataModel.BooleanReadAsInt | konduit-serving-python-new/src/main/java/ai/konduit/serving/PyData.java:164-175 | as written, toJava reads a mapping with one bool back as that key holding the INT64 1 or 0 |
| PyDataModel.BooleanComesBackAsInt | konduit-serving-python-new/src/main/java/ai/konduit/serving/PyData.java:152-262 | as written, a Data holding a boolean comes back holding the INT64 1 or 0 instead |
| PyDataModel.BooleanReadBack | konduit-serving-python-new/src/main/java/ai/konduit/serving/PyData.java:164-175 | with the bool test first, toJava reads a mapping with one bool back as that boolean |
| PyDataModel.BooleanComesBackCorrected | konduit-serving-python-new/src/main/java/ai/konduit/serving/PyData.java:152-262 | with the bool test first, a Data holding a boolean comes back unchanged |
| CodeGen.AbsentUnchanged | konduit-serving-codegen/src/main/java/ai/konduit/serving/codegen/pythoncodegen/CodeGen.java:232 | String.replace leaves text without the pattern unchanged |
| CodeGen.ReplaceAll | konduit-serving-codegen/src/main/java/ai/konduit/serving/codegen/pythoncodegen/CodeGen.java:232 | String.replace keeps the length when pattern and replacement have the same length, and changes nothing when they are equal |
| CodeGen.FindFirst | konduit-serving-codegen/src/main/java/ai/konduit/serving/codegen/pythoncodegen/CodeGen.java:232 | text holding a pattern has a first occurrence |
| CodeGen.UpToFirst | konduit-serving-codegen/src/main/java/ai/konduit/serving/codegen/pythoncodegen/CodeGen.java:232 | replace copies the text before the first occurrence, puts the replacement in its place and goes on after it |
| CodeGen.ReplaceLast | konduit-serving-codegen/src/main/java/ai/konduit/serving/codegen/pythoncodegen/CodeGen.java:232 | when the first occurrence is the only one that fits, replace changes just that one |
| CodeGen.NoOccurrence | konduit-serving-codegen/src/main/java/ai/konduit/serving/codegen/pythoncodegen/CodeGen.java:232-265 | after replace, a pattern is absent when the replacement is clean for it and the pattern was the one replaced or was absent before |
| CodeGen.CleanByWindows | konduit-serving-codegen/src/main/java/ai/konduit/serving/codegen/pythoncodegen/CodeGen.java:232-265 | a replacement is clean for a pattern when neither holds the other's first two characters, apart from listed positions that differ |
| CodeGen.AbsentByWindows | konduit-serving-codegen/src/main/java/ai/konduit/serving/codegen/pythoncodegen/CodeGen.java:232-265 | a text lacks a pattern when it lacks the pattern's first two characters, apart from listed positions that differ |
| CodeGen.PatchTablesClean | konduit-serving-codegen/src/main/java/ai/konduit/serving/codegen/pythoncodegen/CodeGen.java:258-265 | each default-value replacement is clean for its own pattern and the earlier ones, except "setup_and_run=False" for its own |
| CodeGen.PatchPythonDefaultValues | konduit-serving-codegen/src/main/java/ai/konduit/serving/codegen/pythoncodegen/CodeGen.java:255-268 | after patching, no input_data_format, output_data_format, prediction_type or uploads_directory "=None" default is left |
| CodeGen.SetupAndRunDefaultCanSurvive | konduit-serving-codegen/src/main/java/ai/konduit/serving/codegen/pythoncodegen/CodeGen.java:262 | a text holding "setup_and_run=None" once comes out still holding it: the replacement ends in "se", which starts the pattern again |
| CodeGen.PatchUnchanged | konduit-serving-codegen/src/main/java/ai/konduit/serving/codegen/pythoncodegen/CodeGen.java:255-268 | text with none of the five patterns passes through unchanged |
| CodeGen.PatchIdempotent | konduit-serving-codegen/src/main/java/ai/konduit/serving/codegen/pythoncodegen/CodeGen.java:255-268 | patching twice is patching once whenever the first pass leaves no "setup_and_run=None" |
| CodeGen.UploadsDefaultClean | konduit-serving-codegen/src/main/java/ai/konduit/serving/codegen/pythoncodegen/CodeGen.java:265 | the uploads_directory replacement is clean for all five patterns |
| CodeGen.WrapperTablesClean | konduit-serving-codegen/src/main/java/ai/konduit/serving/codegen/pythoncodegen/CodeGen.java:234-244 | the constructor, type-check and 'type' replacements are clean for the patterns they must remove |
| CodeGen.ListWrapperOfTypeCheckIsDead | konduit-serving-codegen/src/main/java/ai/konduit/serving/codegen/pythoncodegen/CodeGen.java:236-239 | the second replacement of the generic type check never changes anything, because the first already removed every occurrence |
| CodeGen.ApplyPythonWrappers | konduit-serving-codegen/src/main/java/ai/konduit/serving/codegen/pythoncodegen/CodeGen.java:231-246 | after the wrappers, no generic type check, no 'type': type entry and no argument-less constructor is left |
| CodeGen.WrappersUnchanged | konduit-serving-codegen/src/main/java/ai/konduit/serving/codegen/pythoncodegen/CodeGen.java:231-246 | text with none of the seven patterns passes through unchanged |
| CodeGen.EnumImportCanSurvive | konduit-serving-codegen/src/main/java/ai/konduit/serving/codegen/pythoncodegen/CodeGen.java:232 | removing "import enum" can join the text around it into a new "import enum", which the output keeps |
| CodeGen.TypeCheckWrappedTwice | konduit-serving-codegen/src/main/java/ai/konduit/serving/codegen/pythoncodegen/CodeGen.java:236-241 | a generic type check comes out with the DictWrapper test twice: the dict check the first replacement writes is wrapped again by the later dict replacement |
| CodeGen.DictCheckRewrapped | konduit-serving-codegen/src/main/java/ai/konduit/serving/codegen/pythoncodegen/CodeGen.java:240-241 | the dict-check replacement matches its own output and appends a second wrapper test |

## Left out

- Concurrency: `synchronized` on `exec`/`close` is not modelled; each method runs alone.
- Logging: the warning that `close` logs is recorded, but the `log.error` calls of the init methods are not.
- Frame conversion: frames, OpenCV/FFmpeg devices and image decoding are outside the model. Each device outcome (start, grab, stop, close) is a method parameter.
- The guest interpreter is not modelled: `Runner.exec` and `PythonJob`, the `PythonTypes` converters, numpy, PIL, ctypes, buffer addresses and `PythonGC`. Numpy arrays, images and byte buffers cross as opaque handles.
- pydata.py is not part of this model. The resource is modelled as the set of global names running it defines, or as missing.
- PyDataModel.ConvertKey: a missing guest global (`Python.globals().get`) fails with a "KeyError: " message rather than the interpreter's exact text.
- PyDataModel.ScalarToJava: the `PythonTypes` converters are taken to accept exactly the objects their branch's isinstance test accepts, with INT reading a bool as 1 or 0. Other coercions they may make (FLOAT of an int, BOOL of any object) are not modelled, so a float-led list holding an int, such as [1.5, 2], fails here, and so does [True, 1] on the corrected ladder.
- PyDataModel.BoxFrom: a box attribute that is a Python int is refused. `toDouble()` would widen it, but the int-to-double conversion is not modelled.
- PyDataModel.BoxFrom: `str()` of a label is modelled for a str, None, a bool and an int. A float label, or a label of any other type, fails here, where `toString()` would give its `str()`; Python's float printing is not modelled.
- PyDataModel.ElementToJava: in a list led by a list, an item that is a numpy array, a mapping or another object is refused. `pyListToJava` would read it through `len()` and `get(i)` where its type supports them, and that reading is not modelled. An int, float, bool or None item fails in both, but the model's message is not Python's TypeError text.
- DataUtils.ListEquals: elements other than doubles compare by equality of the model values. The `equals` of BoundingBox, Image, NDArray and nested Data is not part of this model, so a NaN inside a box or a nested Data compares by its bits.
- NumpyConverters.ToNumpy: a byte count that does not match the shape is not modelled. numpy's `frombuffer`/`reshape` would raise on it.
- The `default: "Unsupported type"` branch of `toPython` cannot be reached with the ten value types, and is not modelled.
- NDArrayType.java is not part of this model. Its constants are taken as DOUBLE, FLOAT, FLOAT16, BFLOAT16, INT64, INT32, INT16, INT8, UINT64, UINT32, UINT16, UINT8, BOOL and UTF8, with UTF8 the only variable-width one.
- NumpyConverters.ToNumpy: the direct-buffer and heap-buffer paths are one path here, because both hand numpy the same bytes.
- Strings.Upper: only ASCII letters change case; Java's Unicode case mapping is not modelled.
- Strings.Lower: only ASCII letters change case; Java's Unicode and locale-dependent case mapping (the dotted and dotless i, for example) is not modelled.
- DataUtils.FormatS: only `%s` is read as a specifier. `String.format` would also read `%%`, other conversions and a missing argument (it throws). The templates in `DataUtils` have exactly two `%s`, but a caller's `errPrefix` holding `%` is copied as text here.
- PyDataModel.ItemToPython: `PythonTypes.convert` is not part of this model. A non-primitive item in a STRING, INT64, DOUBLE or BOOLEAN list is taken to fail with a guest error, whatever converter the registry would pick for it.
- PyDataModel.ItemToPython: a failed cast is a ClassCast failure whose message names the two value types. The JVM's ClassCastException text names the Java classes instead.
- PyDataModel.Interpreter.ToPython: the globals are a set of names, so "Data" bound to `None` is not modelled, and the "Unable to get Data class." branch cannot be reached.
- The `Target` constants (`LINUX_X86`, `LWM_X86`, ...) are plain data and are not modelled.
- CodeGen.PatchPythonDefaultValues: states removal for four of the five defaults. "setup_and_run=None" can survive one pass, shown by SetupAndRunDefaultCanSurvive.
- CodeGen.PatchIdempotent: holds only when the first pass leaves no "setup_and_run=None", for the same reason.
- CodeGen.ApplyPythonWrappers: does not claim that "import enum", the shebang, or the dict and list checks are gone. "import enum" can survive (EnumImportCanSurvive). The dict and list checks are rewritten into text that still contains them.
- The rest of the code generator is not modelled: running the generator, linting, file I/O, and its main loop.
- The launcher and the command-line entry points are not modelled.

## Findings

| source | as written | input that shows it | evidently intended | confidence | as-written member | corrected member |
|---|---|---|---|---|---|---|
| konduit-serving-models/konduit-serving-tensorflow-python/src/main/java/ai/konduit/serving/models/tensorflow/python/NumpyArrayConverters.java:170-175 | the numpy dtype name ("int32", "bool", ...) is passed to `NDArrayType.valueOf`, whose constants are upper case | any INT32 array: it goes to numpy as "int32", and converting back throws "Unsupported numpy data type: int32" | look up the upper-cased name, so every dtype the forward converter emits comes back | not executed | NumpyConverters.Int32DoesNotComeBack | NumpyConverters.RoundTripCorrected |
| konduit-serving-python-new/src/main/java/ai/konduit/serving/PyData.java:125-133 | the BoundingBox branch of `pyListToJava` reads `cx`, `cy`, ... from the list `val` instead of the item `val.get(i)` | a Python list holding one BoundingBox: the list has no attribute `cx` | read the attributes of each item | not executed | PyDataModel.BoxListFailsAsWritten | PyDataModel.BoxListCorrected |
| konduit-serving-python-new/src/main/java/ai/konduit/serving/PyData.java:164-175 | `toJava` (and `pyListToJava` at 89-106) tests `isinstance(val, int)` before `isinstance(val, bool)`; `bool` is a subclass of `int`, so the bool branch is dead and a guest bool becomes an INT64 | a Data holding `b1 = true` sent to Python and read back, as in the tests of `PythonStep`: it comes back as the INT64 1 | test bool before int, so booleans come back as booleans | not executed | PyDataModel.BooleanComesBackAsInt | PyDataModel.BooleanComesBackCorrected |
| konduit-serving-python-new/src/main/java/ai/konduit/serving/PyData.java:186-193 | the BoundingBox branch reads `label` with `toString()` and `probability` with `toDouble()`, but a box with a null label or probability reaches the guest with `None` there | a box with no probability, as in the BoundingBox test of `PythonStep`: `toDouble()` of `None` fails; a null label comes back as "None" | read `None` back as null | not executed | PyDataModel.BoxRoundTrip | PyDataModel.BoxRoundTripCorrected |
| konduit-serving-python-new/src/main/java/ai/konduit/serving/PyData.java:251-254 | the LIST case of `toPython` has no `break`, so it falls into the DATA case, which calls `getData` on the list key | a Data with one key holding a list of strings: `getData` fails on a LIST value | a `break` after the LIST case | not executed | PyDataModel.ListKeyFailsAsWritten | PyDataModel.ListKeyCorrected |
