# Docker ephemeral cloud for Jenkins: a Dafny model

This project models the decision logic of a Jenkins cloud plugin. The plugin
starts one Docker container per build agent and removes the container when
the agent is done. The model covers six parts of the plugin:

- the attribution labels put on every container (`DockerLabelsBuilder`);
- provisioning one container (`CreateContainerCallable.callWithDocker`):
  - does the image exist, and should it be pulled;
  - memory and swap limits, working directory, volumes and labels;
  - create, then start;
  - the user the agent runs as, and the node's name;
- the cloud itself (`DockerCloud`):
  - admission against the instance cap, by counting the plugin's running containers;
  - choosing the first image profile that matches a label;
  - planning new nodes;
  - the image list and the form validators;
- the image profile (`DockerImage`): instance-cap parsing, setters and validators;
- the agent bootstrap (`DockerLauncher`): URLs, the `sh -c` command, exec parameters, the wait, and how `launch` ends;
- the node's teardown (`DockerSlave._terminate`).

The Docker daemon is abstract. `DockerApi.Runtime` is a record of reply
functions; each reply depends on the calls the client has already made and
on the request. `DockerApi.DockerClient` records every call it issues in
`calls`.

Each imperative Java method is a Dafny method over that client. The method
is proved equal to a pure function of the daemon and the history:

| method | pure function |
|---|---|
| `CallWithDocker` | `Provision` |
| `CountRunningContainers` | `CountOutcome` |
| `DockerLauncher.Launch` | `LaunchRun` |
| `Terminate` | `Teardown` |

The lemmas state the plugin's promises about those functions.

Java values are modelled as follows:

- `null` strings are `JavaLang.JString = Option<string>`;
- exceptions are values of `JavaLang.Exception`;
- a call that may throw returns `Outcome<T>`: `Returned(v)` or `Threw(e)`.

Modules, one file each:

- `JavaLang` (java_lang.dfy): nullable strings, `String.trim`, `Integer.parseInt` on ASCII digits, `List.remove`;
- `DockerApi` (docker_api.dfy): requests, replies, the client;
- `Labels` (labels_builder.dfy);
- `Image` (image.dfy);
- `CreateContainer` (create_container.dfy);
- `Cloud` (cloud.dfy);
- `Launcher` (launcher.dfy);
- `Slave` (slave.dfy).

Behaviour of the code that the model keeps as written:

- Admission compares only the cloud-wide count with the cloud's cap. The per-image cap is still a TODO at `DockerCloud.java:162`.
- Running containers are counted by their last name starting with `'/' + containerNamePrefix`, not by attribution labels. A null prefix gives `"/null"`.
- Teardown has no "not found" tolerance. A Docker error from stop or remove becomes an `IOException`, and the node is then not deregistered.
- When naming the node fails (an id shorter than 12 characters), the container that was just started is not cleaned up.
- `launch` swallows Docker and certificate errors instead of reporting them.

## Model

Paths are relative to `src/main/java/com/github/kmbulebu/jenkins/plugins/dockercloud/` in the repository; the table cells carry the full path.

| member | source | states |
|---|---|---|
| Labels.Sanitize | src/main/java/com/github/kmbulebu/jenkins/plugins/dockercloud/DockerLabelsBuilder.java:40-43 | same length; no space in the result; every non-space char kept; every space becomes `_` |
| Labels.SanitizeIdempotent | src/main/java/com/github/kmbulebu/jenkins/plugins/dockercloud/DockerLabelsBuilder.java:40-43 | sanitizing twice equals sanitizing once |
| Labels.SanitizeFixesSpaceFree | src/main/java/com/github/kmbulebu/jenkins/plugins/dockercloud/DockerLabelsBuilder.java:40-43 | a string without spaces is unchanged |
| Labels.SanitizeExample | src/main/java/com/github/kmbulebu/jenkins/plugins/dockercloud/DockerLabelsBuilder.java:40-43 | `sanitize("my label") == "my_label"` |
| Labels.DockerLabelsBuilder.constructor | src/main/java/com/github/kmbulebu/jenkins/plugins/dockercloud/DockerLabelsBuilder.java:17-19 | a new builder holds exactly the plugin-name entry |
| Labels.DockerLabelsBuilder.Build | src/main/java/com/github/kmbulebu/jenkins/plugins/dockercloud/DockerLabelsBuilder.java:21-23 | no contract of its own: the map it returns is stated by `Labels.BuildContainerLabels` and `Labels.LastWriteWins` |
| Labels.DockerLabelsBuilder.SetCloudName | src/main/java/com/github/kmbulebu/jenkins/plugins/dockercloud/DockerLabelsBuilder.java:25-28 | only the cloud-name key changes, to the sanitized value; returns the builder itself |
| Labels.DockerLabelsBuilder.SetImageName | src/main/java/com/github/kmbulebu/jenkins/plugins/dockercloud/DockerLabelsBuilder.java:30-33 | only the image-name key changes, to the sanitized value; returns the builder itself |
| Labels.DockerLabelsBuilder.SetLabelString | src/main/java/com/github/kmbulebu/jenkins/plugins/dockercloud/DockerLabelsBuilder.java:35-38 | only the label-string key changes, to the value as given, not sanitized |
| Labels.ContainerLabels | src/main/java/com/github/kmbulebu/jenkins/plugins/dockercloud/DockerLabelsBuilder.java:11-38 | exactly the four keys; the plugin marker value; sanitized cloud and image names; the label string verbatim |
| Labels.ContainerLabelsSpaceFree | src/main/java/com/github/kmbulebu/jenkins/plugins/dockercloud/DockerLabelsBuilder.java:25-33 | the plugin, cloud and image label values contain no space |
| Labels.BuildContainerLabels | src/main/java/com/github/kmbulebu/jenkins/plugins/dockercloud/CreateContainerCallable.java:102-106 | the builder sequence run on a fresh builder, then `build()`, yields `ContainerLabels` |
| Labels.LastWriteWins | src/main/java/com/github/kmbulebu/jenkins/plugins/dockercloud/DockerLabelsBuilder.java:21-38 | setting the cloud name twice keeps the second value; the other keys are untouched |
| Image.ParseInstanceCap | src/main/java/com/github/kmbulebu/jenkins/plugins/dockercloud/DockerImage.java:44-48 | null or `""` gives `Integer.MAX_VALUE`; anything else is `Integer.parseInt` of it, with ASCII digits only (see Left out) |
| Image.ParseInstanceCapDigits | src/main/java/com/github/kmbulebu/jenkins/plugins/dockercloud/DockerImage.java:46-48 | a digit string that fits in an int gives its decimal value |
| Image.ConstructorAcceptsWhatValidatorRefuses | src/main/java/com/github/kmbulebu/jenkins/plugins/dockercloud/DockerImage.java:44-48 | `""`, `"-1"` and `"0"` are accepted by the constructor but refused by the validator, each with its message |
| Image.DockerImage.constructor | src/main/java/com/github/kmbulebu/jenkins/plugins/dockercloud/DockerImage.java:37-49 | the five fields are stored unchanged, and the cap is the parsed cap |
| Image.DockerImage.Create | src/main/java/com/github/kmbulebu/jenkins/plugins/dockercloud/DockerImage.java:37-49 | throws NumberFormatException exactly when the cap string does not parse; otherwise a fresh image with the fields stored |
| Image.DockerImage.SetName | src/main/java/com/github/kmbulebu/jenkins/plugins/dockercloud/DockerImage.java:55-58 | assigns only `name` |
| Image.DockerImage.SetLabelString | src/main/java/com/github/kmbulebu/jenkins/plugins/dockercloud/DockerImage.java:64-67 | assigns only `labelString` |
| Image.DockerImage.SetMode | src/main/java/com/github/kmbulebu/jenkins/plugins/dockercloud/DockerImage.java:73-76 | assigns only `mode` |
| Image.DockerImage.SetInstanceCap | src/main/java/com/github/kmbulebu/jenkins/plugins/dockercloud/DockerImage.java:82-85 | assigns only `instanceCap` |
| Image.DockerImage.SetDockerImageName | src/main/java/com/github/kmbulebu/jenkins/plugins/dockercloud/DockerImage.java:91-94 | assigns only `dockerImageName` |
| Image.DockerImage.SetRemoteFS | src/main/java/com/github/kmbulebu/jenkins/plugins/dockercloud/DockerImage.java:100-103 | assigns only `remoteFS` |
| Image.DockerImage.ReadResolve | src/main/java/com/github/kmbulebu/jenkins/plugins/dockercloud/DockerImage.java:110-112 | returns the object itself |
| Image.DoCheckName | src/main/java/com/github/kmbulebu/jenkins/plugins/dockercloud/DockerImage.java:126-131 | error "Required" exactly when null or empty |
| Image.DoCheckInstanceCapStr | src/main/java/com/github/kmbulebu/jenkins/plugins/dockercloud/DockerImage.java:133-145 | each outcome as an if-and-only-if: "Required" for blank, "Must be a number" for non-digits, "Must be at least one." for value 0, a NumberFormatException above `Integer.MAX_VALUE`, ok for 1..`MAX_VALUE` |
| Image.ValidatedCapParses | src/main/java/com/github/kmbulebu/jenkins/plugins/dockercloud/DockerImage.java:133-145 | a cap string the validator accepts makes the constructor's parse succeed with that value, at least 1 |
| Image.AtLeastOneMeansNonZeroDigit | src/main/java/com/github/kmbulebu/jenkins/plugins/dockercloud/DockerImage.java:140-143 | a digit string fails "at least one" exactly when every digit is '0' |
| Image.DoCheckDockerImageName | src/main/java/com/github/kmbulebu/jenkins/plugins/dockercloud/DockerImage.java:147-152 | error "Required" exactly when null or empty |
| Image.DoCheckRemoteFS | src/main/java/com/github/kmbulebu/jenkins/plugins/dockercloud/DockerImage.java:154-159 | error "Required" exactly when null or empty |
| CreateContainer.ImageExists | src/main/java/com/github/kmbulebu/jenkins/plugins/dockercloud/CreateContainerCallable.java:41-52 | present iff inspect returned info; absent on a null reply or ImageNotFoundException; any other error propagates unchanged |
| CreateContainer.DecidePull | src/main/java/com/github/kmbulebu/jenkins/plugins/dockercloud/CreateContainerCallable.java:56-63 | pull iff (absent or forced) and not disabled; fail iff (absent or forced) and disabled; skip iff present and not forced |
| CreateContainer.PullDecisionTable | src/main/java/com/github/kmbulebu/jenkins/plugins/dockercloud/CreateContainerCallable.java:56-63 | all eight combinations of present, forced and disabled, including present, forced and disabled failing |
| CreateContainer.HostConfigFor | src/main/java/com/github/kmbulebu/jenkins/plugins/dockercloud/CreateContainerCallable.java:80-124 | CPU shares and privilege copied from the profile; binds are the volume lines |
| CreateContainer.NoMemoryLimitSetsNothing | src/main/java/com/github/kmbulebu/jenkins/plugins/dockercloud/CreateContainerCallable.java:82-94 | without a memory limit neither memory nor memory+swap is set, whatever the swap flag |
| CreateContainer.MemoryLimitsRoundTrip | src/main/java/com/github/kmbulebu/jenkins/plugins/dockercloud/CreateContainerCallable.java:82-94 | memory set iff memory-limited, and then exactly memory MB · 2^20 (so bytes / 2^20 gives back the MB); memory+swap set iff both flags, and then exactly swap MB · 2^20 plus memory |
| CreateContainer.MemoryExample | src/main/java/com/github/kmbulebu/jenkins/plugins/dockercloud/CreateContainerCallable.java:82-93 | 512 MB / 256 MB give 536870912 and 805306368 |
| CreateContainer.WorkingDirFor | src/main/java/com/github/kmbulebu/jenkins/plugins/dockercloud/CreateContainerCallable.java:97-99 | the working directory is applied iff it is non-null and non-empty, and then unchanged |
| CreateContainer.VolumeLines | src/main/java/com/github/kmbulebu/jenkins/plugins/dockercloud/CreateContainerCallable.java:116-121 | null volumes give no binds; otherwise the text is one bind spec |
| CreateContainer.ContainerConfigFor | src/main/java/com/github/kmbulebu/jenkins/plugins/dockercloud/CreateContainerCallable.java:69-128 | image, attach flags, tty, `cat` command, working dir, the four labels, volumes, and a host config whose binds equal the volumes |
| CreateContainer.ResolveExecUser | src/main/java/com/github/kmbulebu/jenkins/plugins/dockercloud/CreateContainerCallable.java:137-147 | no contract of its own: `OverrideWins`, `ImageUserFallback`, `ResolvedUserHasText` and `ExecUserExamples` state which user is chosen |
| CreateContainer.OverrideWins | src/main/java/com/github/kmbulebu/jenkins/plugins/dockercloud/CreateContainerCallable.java:138-140 | an override with text wins over any image user, and is passed untrimmed |
| CreateContainer.ImageUserFallback | src/main/java/com/github/kmbulebu/jenkins/plugins/dockercloud/CreateContainerCallable.java:141-147 | with a blank override: the image user trimmed if it has text, else null |
| CreateContainer.ResolvedUserHasText | src/main/java/com/github/kmbulebu/jenkins/plugins/dockercloud/CreateContainerCallable.java:137-147 | a resolved, non-null user is never blank |
| CreateContainer.ExecUserExamples | src/main/java/com/github/kmbulebu/jenkins/plugins/dockercloud/CreateContainerCallable.java:137-147 | override "deploy" over "root"; blank override with "app"; blank and blank give null |
| CreateContainer.NodeName | src/main/java/com/github/kmbulebu/jenkins/plugins/dockercloud/CreateContainerCallable.java:150 | throws StringIndexOutOfBoundsException iff the id is shorter than 12; otherwise the 12-char prefix of the id |
| CreateContainer.NodeDescription | src/main/java/com/github/kmbulebu/jenkins/plugins/dockercloud/CreateContainerCallable.java:33-35 | the node description built from the image config name, the Docker image name and the cloud name; used by `ProvisionSuccess`'s node |
| CreateContainer.PullDisabledMessage | src/main/java/com/github/kmbulebu/jenkins/plugins/dockercloud/CreateContainerCallable.java:57-58 | the IllegalStateException message; `PullDisabledFails` states when it is thrown |
| CreateContainer.Provision | src/main/java/com/github/kmbulebu/jenkins/plugins/dockercloud/CreateContainerCallable.java:38-154 | no contract of its own: the calls and result of callWithDocker, stated by `ProvisionCases`, `ProvisionInspectsFirst`, `InspectErrorStops`, `PullIssuedIff`, `PullDisabledFails`, `StartFollowsCreate`, `ProvisionSuccess` |
| CreateContainer.PullStep | src/main/java/com/github/kmbulebu/jenkins/plugins/dockercloud/CreateContainerCallable.java:41-63 | no contract of its own: the calls of the first half, stated by `PullStepStartsNothing`, `ProvisionCases` and `ProvisionAfterPullStep` |
| CreateContainer.CreateAndStart | src/main/java/com/github/kmbulebu/jenkins/plugins/dockercloud/CreateContainerCallable.java:65-153 | no contract of its own: the second half, stated by `CreateAndStartShape` and `ShortIdLeavesContainerRunning` |
| CreateContainer.CreateContainerCallable.constructor | src/main/java/com/github/kmbulebu/jenkins/plugins/dockercloud/CreateContainerCallable.java:27-31 | stores the client, the cloud name and the image profile |
| CreateContainer.CreateContainerCallable.CallWithDocker | src/main/java/com/github/kmbulebu/jenkins/plugins/dockercloud/CreateContainerCallable.java:38-154 | the result and the calls appended to the client are exactly those of `Provision` |
| CreateContainer.CreateContainerCallable.PullIfNeeded | src/main/java/com/github/kmbulebu/jenkins/plugins/dockercloud/CreateContainerCallable.java:41-63 | the existence check and pull: on a throw, the whole run ends with that exception after exactly these calls; otherwise the calls are the pull step's and the run continues with the second half |
| CreateContainer.CreateContainerCallable.StartContainer | src/main/java/com/github/kmbulebu/jenkins/plugins/dockercloud/CreateContainerCallable.java:65-153 | the part after the pull: result and calls are exactly those of `CreateAndStart` |
| CreateContainer.CreateContainerCallable.Call | src/main/java/com/github/kmbulebu/jenkins/plugins/dockercloud/DockerClientCallable.java:16-24 | `callWithDocker` on the callable's client, followed by exactly one close, whatever happened |
| CreateContainer.CreateAndStartShape | src/main/java/com/github/kmbulebu/jenkins/plugins/dockercloud/CreateContainerCallable.java:65-134 | the second inspect comes first; create (with the profile's config) iff it returned info; start of the created id iff create succeeded; a node only after the start succeeded |
| CreateContainer.ProvisionAfterPullStep | src/main/java/com/github/kmbulebu/jenkins/plugins/dockercloud/CreateContainerCallable.java:56-65 | once past the pull step, the run is the pull step's calls followed by the second half |
| CreateContainer.ProvisionCases | src/main/java/com/github/kmbulebu/jenkins/plugins/dockercloud/CreateContainerCallable.java:41-66 | each way the first half ends: inspect error, pulls disabled, pull error, or on to the second half after one inspect (present, not forced) or inspect and pull |
| CreateContainer.ProvisionInspectsFirst | src/main/java/com/github/kmbulebu/jenkins/plugins/dockercloud/CreateContainerCallable.java:43-44 | the first call is always an inspect of the configured image |
| CreateContainer.InspectErrorStops | src/main/java/com/github/kmbulebu/jenkins/plugins/dockercloud/CreateContainerCallable.java:41-52 | an inspect error other than not-found propagates, and that inspect is the only call |
| CreateContainer.PullIssuedIff | src/main/java/com/github/kmbulebu/jenkins/plugins/dockercloud/CreateContainerCallable.java:56-63 | a pull is issued iff the existence check returned, (absent or forced), and not disabled |
| CreateContainer.SkippedPullIssuesNone | src/main/java/com/github/kmbulebu/jenkins/plugins/dockercloud/CreateContainerCallable.java:56-63 | an image that is present, with no forced pull, is never pulled |
| CreateContainer.PullDisabledFails | src/main/java/com/github/kmbulebu/jenkins/plugins/dockercloud/CreateContainerCallable.java:56-59 | (absent or forced) with pulls disabled: IllegalStateException with its message, and no pull, create or start |
| CreateContainer.PullStepStartsNothing | src/main/java/com/github/kmbulebu/jenkins/plugins/dockercloud/CreateContainerCallable.java:41-63 | the first half issues one or two calls, none of them a start |
| CreateContainer.ProvisionStopsInPullStep | src/main/java/com/github/kmbulebu/jenkins/plugins/dockercloud/CreateContainerCallable.java:41-63 | a run that ends within the first half has issued a prefix of that half's calls |
| CreateContainer.OnlyLastCallStarts | src/main/java/com/github/kmbulebu/jenkins/plugins/dockercloud/CreateContainerCallable.java:131-134 | no call but the last of a run is a start |
| CreateContainer.StartFollowsCreate | src/main/java/com/github/kmbulebu/jenkins/plugins/dockercloud/CreateContainerCallable.java:131-134 | only the last call can be a start; it comes right after a create with the profile's config, and targets the id that create returned |
| CreateContainer.ProvisionSuccess | src/main/java/com/github/kmbulebu/jenkins/plugins/dockercloud/CreateContainerCallable.java:131-153 | on success: the run ends inspect, create, start of the node's id; name is the id's 12-char prefix; exec user resolved from the second inspect; remote FS, mode and label string from the profile |
| CreateContainer.ShortIdLeavesContainerRunning | src/main/java/com/github/kmbulebu/jenkins/plugins/dockercloud/CreateContainerCallable.java:131-150 | a started container with an id shorter than 12 ends the run with StringIndexOutOfBoundsException and no cleanup call |
| Cloud.MatchesLabel | src/main/java/com/github/kmbulebu/jenkins/plugins/dockercloud/DockerCloud.java:218-220 | no contract of its own: a null label matches NORMAL-mode images (`NullLabelMatchesNormal`); otherwise the label expression decides on the image's label string |
| Cloud.FirstMatch | src/main/java/com/github/kmbulebu/jenkins/plugins/dockercloud/DockerCloud.java:209-219 | -1 iff no image matches; otherwise that image matches and no earlier one does |
| Cloud.NullLabelMatchesNormal | src/main/java/com/github/kmbulebu/jenkins/plugins/dockercloud/DockerCloud.java:218-219 | for a null label, a match exists iff some image is in NORMAL mode |
| Cloud.MatchPrefix | src/main/java/com/github/kmbulebu/jenkins/plugins/dockercloud/DockerCloud.java:175 | `'/'` followed by the prefix as Java prints it (`"null"` for null) |
| Cloud.CountMatching | src/main/java/com/github/kmbulebu/jenkins/plugins/dockercloud/DockerCloud.java:176-181 | never more than the number of listed containers |
| Cloud.CountMatchingIsCardinality | src/main/java/com/github/kmbulebu/jenkins/plugins/dockercloud/DockerCloud.java:176-181 | the count is the number of positions whose container has names and whose last name starts with the match string |
| Cloud.AllCountedCountsAll | src/main/java/com/github/kmbulebu/jenkins/plugins/dockercloud/DockerCloud.java:176-181 | when every container qualifies, all are counted |
| Cloud.EmptyPrefixCountsEveryContainer | src/main/java/com/github/kmbulebu/jenkins/plugins/dockercloud/DockerCloud.java:175-181 | with an empty prefix every container whose name starts with '/' counts, the plugin's or not |
| Cloud.CountOutcome | src/main/java/com/github/kmbulebu/jenkins/plugins/dockercloud/DockerCloud.java:167-187 | a client-build failure propagates; a successful count is non-negative |
| Cloud.CanProvisionDecision | src/main/java/com/github/kmbulebu/jenkins/plugins/dockercloud/DockerCloud.java:135-165 | true iff count < cap and an image matches; false at or above the cap and on every Docker, interrupt or certificate error; other exceptions propagate unchanged |
| Cloud.CanProvisionFailsClosed | src/main/java/com/github/kmbulebu/jenkins/plugins/dockercloud/DockerCloud.java:144-153 | a failed count never yields true |
| Cloud.DockerCloud.constructor | src/main/java/com/github/kmbulebu/jenkins/plugins/dockercloud/DockerCloud.java:55-70 | fields stored; a null image list becomes the fixed empty list |
| Cloud.DockerCloud.SetContainerNamePrefix | src/main/java/com/github/kmbulebu/jenkins/plugins/dockercloud/DockerCloud.java:103-106 | assigns only the prefix |
| Cloud.DockerCloud.BuildDockerClient | src/main/java/com/github/kmbulebu/jenkins/plugins/dockercloud/DockerCloud.java:324-338 | throws iff the endpoint's build fails; otherwise a fresh client on the cloud's daemon with no calls |
| Cloud.DockerCloud.CountRunningContainers | src/main/java/com/github/kmbulebu/jenkins/plugins/dockercloud/DockerCloud.java:167-188 | equals `CountOutcome`; a built client is listed once and then closed, and no calls are made when none is built |
| Cloud.DockerCloud.FindDockerImageForLabel | src/main/java/com/github/kmbulebu/jenkins/plugins/dockercloud/DockerCloud.java:209-216 | null iff no image matches; otherwise the first matching image in list order |
| Cloud.DockerCloud.CanProvision | src/main/java/com/github/kmbulebu/jenkins/plugins/dockercloud/DockerCloud.java:134-165 | equals `CanProvisionDecision` of the count, the cloud's cap and whether an image matches |
| Cloud.DockerCloud.Provision | src/main/java/com/github/kmbulebu/jenkins/plugins/dockercloud/DockerCloud.java:108-132 | empty when no image matches or a client build hits a certificate error; other build errors propagate; otherwise max(excessWorkload, 0) nodes, each with the cloud's name, the first matching image, one executor and a distinct fresh client |
| Cloud.DockerCloud.AddImage | src/main/java/com/github/kmbulebu/jenkins/plugins/dockercloud/DockerCloud.java:194-196 | appends the image, or throws UnsupportedOperationException and changes nothing when the list is the fixed empty list |
| Cloud.DockerCloud.RemoveImage | src/main/java/com/github/kmbulebu/jenkins/plugins/dockercloud/DockerCloud.java:198-200 | the list becomes `List.remove` of the old list and that image object |
| JavaLang.ListRemove | src/main/java/com/github/kmbulebu/jenkins/plugins/dockercloud/DockerCloud.java:198-200 | an absent element leaves the list unchanged; otherwise its first occurrence is cut out, one fewer of it, everything else in order |
| Cloud.RemoveThenAddSameImages | src/main/java/com/github/kmbulebu/jenkins/plugins/dockercloud/DockerCloud.java:194-200 | removing a listed image and adding it back gives the same images as a multiset |
| Cloud.RemoveAbsentIsNoOp | src/main/java/com/github/kmbulebu/jenkins/plugins/dockercloud/DockerCloud.java:198-200 | removing an image that is not listed changes nothing |
| Cloud.DockerCloud.ReadResolve | src/main/java/com/github/kmbulebu/jenkins/plugins/dockercloud/DockerCloud.java:202-207 | returns the cloud itself |
| Cloud.DoCheckName | src/main/java/com/github/kmbulebu/jenkins/plugins/dockercloud/DockerCloud.java:234-239 | error "Required" exactly when null or empty |
| Cloud.DoCheckInstanceCapStr | src/main/java/com/github/kmbulebu/jenkins/plugins/dockercloud/DockerCloud.java:241-253 | each outcome as an if-and-only-if: "Required" for blank, "Must be a number" for non-digits, "Must be at least one." for value 0, a NumberFormatException above `Integer.MAX_VALUE`, ok for 1..`MAX_VALUE` |
| Cloud.DoCheckContainerNamePrefixAsWritten | src/main/java/com/github/kmbulebu/jenkins/plugins/dockercloud/DockerCloud.java:314-319 | as written, every prefix is accepted |
| Cloud.BlankPrefixPasses | src/main/java/com/github/kmbulebu/jenkins/plugins/dockercloud/DockerCloud.java:314-319 | the empty and the null prefix pass, although the required-field check refuses `""` |
| Cloud.DoCheckContainerNamePrefix | src/main/java/com/github/kmbulebu/jenkins/plugins/dockercloud/DockerCloud.java:314-319 | corrected: error "Required" exactly when null or empty |
| Cloud.AcceptedPrefixNarrowsMatch | src/main/java/com/github/kmbulebu/jenkins/plugins/dockercloud/DockerCloud.java:314-319 | a prefix the corrected validator accepts gives a match string longer than "/" |
| Launcher.JenkinsBaseUrl | src/main/java/com/github/kmbulebu/jenkins/plugins/dockercloud/DockerLauncher.java:122-129 | always ends with '/'; the URL itself if it already did, else the URL plus '/' |
| Launcher.JenkinsBaseUrlIdempotent | src/main/java/com/github/kmbulebu/jenkins/plugins/dockercloud/DockerLauncher.java:122-129 | normalising twice equals normalising once |
| Launcher.SlaveJarUrl | src/main/java/com/github/kmbulebu/jenkins/plugins/dockercloud/DockerLauncher.java:134-136 | the base URL followed by `jnlpJars/slave.jar`, and nothing else |
| Launcher.SlaveJnlpUrl | src/main/java/com/github/kmbulebu/jenkins/plugins/dockercloud/DockerLauncher.java:141-144 | the base URL, the computer URL, then `slave-agent.jnlp`, and nothing else |
| Launcher.SlaveOptions | src/main/java/com/github/kmbulebu/jenkins/plugins/dockercloud/DockerLauncher.java:66-67 | `-jnlpUrl <jnlp> -secret <secret>`, with ` -disableSslVerification` appended iff the property is present |
| Launcher.SslFlagOnlyAppends | src/main/java/com/github/kmbulebu/jenkins/plugins/dockercloud/DockerLauncher.java:66-67 | the options with the flag are the options without it plus the flag |
| Launcher.Command | src/main/java/com/github/kmbulebu/jenkins/plugins/dockercloud/DockerLauncher.java:68 | exactly `sh`, `-c`, and `curl -o slave.jar <jar> && java -jar slave.jar <options>` |
| Launcher.ExecParams | src/main/java/com/github/kmbulebu/jenkins/plugins/dockercloud/DockerLauncher.java:70-76 | ends with stderr, stdout and tty; three params without a user, four with the user first otherwise |
| Launcher.ExecParamsUserIff | src/main/java/com/github/kmbulebu/jenkins/plugins/dockercloud/DockerLauncher.java:72-76 | a user parameter appears iff an exec user is set, and always names that user |
| Launcher.WaitMillis | src/main/java/com/github/kmbulebu/jenkins/plugins/dockercloud/DockerLauncher.java:99 | the configured property if set, else 60000 |
| Launcher.ExecRequest | src/main/java/com/github/kmbulebu/jenkins/plugins/dockercloud/DockerLauncher.java:65-78 | the exec targets the slave's container with the bootstrap command and the exec params |
| Launcher.LaunchRun | src/main/java/com/github/kmbulebu/jenkins/plugins/dockercloud/DockerLauncher.java:56-117 | no contract of its own: the calls and outcome of launch, stated by `LaunchClosesClientOnce`, `LaunchExecsBootstrap`, `LaunchSwallowsDockerErrors`, `LaunchRethrowsInterrupt`, `LaunchNeverThrowsDockerErrors` |
| Launcher.LaunchClosesClientOnce | src/main/java/com/github/kmbulebu/jenkins/plugins/dockercloud/DockerLauncher.java:108-115 | a built client is closed exactly once, as the last call; no client means no calls |
| Launcher.LaunchExecsBootstrap | src/main/java/com/github/kmbulebu/jenkins/plugins/dockercloud/DockerLauncher.java:78 | with a client, the first call is the bootstrap exec |
| Launcher.LaunchSwallowsDockerErrors | src/main/java/com/github/kmbulebu/jenkins/plugins/dockercloud/DockerLauncher.java:101-104 | a certificate error building the client, or a Docker error creating the exec, ends launch normally |
| Launcher.LaunchRethrowsInterrupt | src/main/java/com/github/kmbulebu/jenkins/plugins/dockercloud/DockerLauncher.java:105-107 | an interrupt during the exec call or the wait is rethrown |
| Launcher.LaunchNeverThrowsDockerErrors | src/main/java/com/github/kmbulebu/jenkins/plugins/dockercloud/DockerLauncher.java:101-107 | launch never throws a Docker or a certificate exception |
| Launcher.DockerLauncher.constructor | src/main/java/com/github/kmbulebu/jenkins/plugins/dockercloud/DockerLauncher.java:40-44 | stores the exec user |
| Launcher.DockerLauncher.GetExecUser | src/main/java/com/github/kmbulebu/jenkins/plugins/dockercloud/DockerLauncher.java:46-48 | no contract of its own: returns what the constructor or `SetExecUser` stored, as their contracts state |
| Launcher.DockerLauncher.SetExecUser | src/main/java/com/github/kmbulebu/jenkins/plugins/dockercloud/DockerLauncher.java:50-53 | the getter then returns the new user |
| Launcher.DockerLauncher.Launch | src/main/java/com/github/kmbulebu/jenkins/plugins/dockercloud/DockerLauncher.java:56-117 | result and client calls are exactly those of `LaunchRun` for the launcher's exec user |
| Launcher.DockerLauncher.ExecAndWait | src/main/java/com/github/kmbulebu/jenkins/plugins/dockercloud/DockerLauncher.java:66-115 | on a freshly built client: result and client calls are exactly those of `LaunchRun`, i.e. the exec, then one close on every path |
| Slave.Rethrown | src/main/java/com/github/kmbulebu/jenkins/plugins/dockercloud/DockerSlave.java:76-79 | a Docker exception becomes an IOException wrapping it; an interrupt passes unchanged |
| Slave.Deregister | src/main/java/com/github/kmbulebu/jenkins/plugins/dockercloud/DockerSlave.java:81-84 | disconnect only when a computer exists, then remove the node last |
| Slave.Teardown | src/main/java/com/github/kmbulebu/jenkins/plugins/dockercloud/DockerSlave.java:65-86 | no contract of its own: the calls, outcome and Jenkins effects of `_terminate`, stated by `NullIdMakesNoCalls`, `StopBeforeRemove`, `DockerFailureBecomesIOException`, `DeregisteredIffReturned`, `TeardownReturnsIff`, `TeardownLeavesClientOpen` |
| Slave.NullIdMakesNoCalls | src/main/java/com/github/kmbulebu/jenkins/plugins/dockercloud/DockerSlave.java:66-67 | a null container id means no Docker call; the node is deregistered |
| Slave.StopBeforeRemove | src/main/java/com/github/kmbulebu/jenkins/plugins/dockercloud/DockerSlave.java:70-75 | the calls are a prefix of stop(id, 30) then remove(id, with volumes); remove only after stop succeeded |
| Slave.DockerFailureBecomesIOException | src/main/java/com/github/kmbulebu/jenkins/plugins/dockercloud/DockerSlave.java:76-79 | a Docker failure of stop or remove is thrown as an IOException wrapping it, and nothing is asked of Jenkins |
| Slave.DeregisterRemovesOnce | src/main/java/com/github/kmbulebu/jenkins/plugins/dockercloud/DockerSlave.java:81-84 | deregistration removes the node exactly once |
| Slave.DeregisteredIffReturned | src/main/java/com/github/kmbulebu/jenkins/plugins/dockercloud/DockerSlave.java:81-85 | on return the node is disconnected if it has a computer, then removed exactly once; after a throw nothing is asked of Jenkins |
| Slave.TeardownReturnsIff | src/main/java/com/github/kmbulebu/jenkins/plugins/dockercloud/DockerSlave.java:65-86 | teardown returns normally iff the id is null or both the stop and the remove succeed |
| Slave.TeardownLeavesClientOpen | src/main/java/com/github/kmbulebu/jenkins/plugins/dockercloud/DockerSlave.java:71-75 | teardown never closes the client it obtains |
| Slave.DockerSlave.constructor | src/main/java/com/github/kmbulebu/jenkins/plugins/dockercloud/DockerSlave.java:44-48 | fields stored, one executor, no container id yet |
| Slave.DockerSlave.GetDockerId | src/main/java/com/github/kmbulebu/jenkins/plugins/dockercloud/DockerSlave.java:50-52 | no contract of its own: returns what `SetDockerId` stored (null after the constructor), as their contracts state |
| Slave.DockerSlave.SetDockerId | src/main/java/com/github/kmbulebu/jenkins/plugins/dockercloud/DockerSlave.java:54-56 | the getter then returns the new id |
| Slave.DockerSlave.Terminate | src/main/java/com/github/kmbulebu/jenkins/plugins/dockercloud/DockerSlave.java:65-86 | result, client calls and Jenkins effects are exactly those of `Teardown`, for the slave's cloud and id |

## Left out

- `DockerApi.Runtime` stands for the Docker daemon: replies are arbitrary functions of the client's history, and no wire format is modelled.
- `buildDockerClient` is modelled by its outcome only (`DockerApi.Endpoint`):
  - a fresh client on the daemon, or one of the exceptions it may throw;
  - URI parsing, TLS and certificate loading are not modelled.
- `doCheckUri`, `doCheckCertificatesPath` and `doTestConnection` need the URI parser, the filesystem and a live daemon. `DockerCloud`'s uri, TLS and certificates-path fields and their getters and setters are folded into the cloud's endpoint.
- Slave.DockerSlave.Terminate: obtains its client through `buildDockerClient`.
  - `dockerCloud.getDockerClient()` is not part of this model.
  - An exception from obtaining a client propagates unchanged. This includes a DockerCertificateException, but `_terminate` (DockerSlave.java:65) declares only `throws IOException, InterruptedException`, so in Java that outcome cannot reach the caller as written.
- CreateContainer.VolumeLines: the volumes text is one bind spec. Java's `split("$")` also drops trailing empty strings and splits at a trailing line terminator; those cases are not modelled.
- `Label.matches` / `Label.parse` are an abstract predicate (`Cloud.LabelExpr`) on the image's label string.
- CreateContainer.ImageProfile is one record of the `DockerImage` getters that `CreateContainerCallable` reads:
  - DockerImage.java defines none of `getWorkingDir`, `getVolumes`, `getUserOverride`, `isPullForced`, `isPullDisabled`, `getCpuShares`, `isMemoryLimited`, `getMemoryLimitMB`, `isSwapLimited`, `getSwapLimitMB`, `isPrivileged` or `getNodeProperties`, which CreateContainerCallable.java calls;
  - the nine-argument `DockerSlave` constructor that CreateContainerCallable.java:151 calls is not the six-argument one in DockerSlave.java:45, so a successful provisioning returns the `NewNode` record of its arguments.
- The image's node properties are not modelled, and neither is a null label string, image name or cloud name in the label builder: CreateContainerCallable.java:103 passes `dockerCloud.getName()` to `cloudName`, whose `sanitize` (DockerLabelsBuilder.java:39-42) would throw NullPointerException for a null name, while `SetCloudName` takes a non-null string.
- Cloud.DockerCloud.Provision: the planned nodes' futures are represented by the fresh client and the image.
  - `Computer.threadPoolForRemoting.submit` (concurrency) is not modelled.
  - The loop counter is a mathematical integer. Java's `i++` would wrap at `Integer.MAX_VALUE`.
- Cloud.DockerCloud.Provision: every client build within one call has the same outcome, because a cloud's endpoint is fixed. In the code, `buildDockerClient` reloads the certificates on every call. So a DockerCertificateException on a later iteration would return an empty list after earlier callables were already submitted, and those would create containers that no planned node tracks. The model cannot represent that path.
- Cloud.DockerCloud.ReadResolve: the per-image `readResolve` calls return their image unchanged, so the loop over them is not modelled.
- JavaLang.ParseInt and Image.ParseInstanceCap: only the ASCII digits '0'..'9' are decimal digits. `Integer.parseInt` also accepts other Unicode decimal digits (such as Arabic-Indic or full-width digits); for such a cap string the model's `DockerImage.Create` throws NumberFormatException where Java gets a cap. The validators' `matches("\\d+")` is ASCII-only, so `IsDigits` is exact there.
- The cloud's instance cap is an `int` field: `AbstractCloudImpl`, which parses `instanceCapStr`, is not part of this model.
- Launcher.DockerLauncher.Launch:
  - `super.launch` (the JNLP listener) is not modelled;
  - the output-streaming thread (`execStart` and its interrupt) is not modelled;
  - the wall-clock sleep is not modelled: an interrupt during the wait is an input (`interruptedWhileWaiting`), and `Thread.sleep`'s IllegalArgumentException on a negative duration is kept;
  - the container id is taken as a non-null string.
- The Jenkins root URL is a non-null string, so the NullPointerException for an unconfigured URL is not modelled.
- `Long.getLong`'s decoding of the property is not modelled: the property arrives already decoded.
- Memory arithmetic is on mathematical integers. Java's `Long` would overflow only for absurd MB values.
- The running count is a mathematical integer. Java's `int count` cannot realistically overflow.
- `Jenkins.removeNode` and `disconnect` are recorded as effects (`Slave.Jenkins`); their own failures are not modelled.
- Logging, `HurryUpRunListener` and the thread pool are left out.
- DockerCloud.java:21,24 and DockerSlave.java:14 import `DockerCertificateException` and `DockerException` from `com.spotify.docker.client`, while DockerLauncher.java:15-16 and CreateContainerCallable.java:7 import from `com.spotify.docker.client.exceptions`. The model treats each name as one exception.

## Findings

| source | as written | input that shows it | evidently intended | confidence | as-written member | corrected member |
|---|---|---|---|---|---|---|
| src/main/java/com/github/kmbulebu/jenkins/plugins/dockercloud/DockerCloud.java:314-319 | `FormValidation.error("Required")` is built and discarded, so the check always returns ok | `containerNamePrefix = ""` (or null) is accepted. With `""` the running-container count then matches every container whose name starts with "/", i.e. all of them (`Cloud.EmptyPrefixCountsEveryContainer`); null gives the match string "/null" | return the error for a null or empty prefix, like the other required-field checks | not executed | Cloud.DoCheckContainerNamePrefixAsWritten (Cloud.BlankPrefixPasses) | Cloud.DoCheckContainerNamePrefix (Cloud.AcceptedPrefixNarrowsMatch) |
