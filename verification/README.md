# Linode Packer plugin: a Dafny model

This project models the core of the Linode plugin for Packer:

- the Linode builder's configuration preparation: defaults, required settings and tag validation;
- its two build steps:
  - creating the instance and finding its disk;
  - turning that disk into an image;
- the flattening of the configured network interfaces and metadata into API create options;
- the artifact the build produces;
- the shared step-failure helper;
- the image datasource:
  - token fallback;
  - the server-side filter;
  - local filtering;
  - the choice among several candidates, including `latest`;
  - the output projection;
- the small Docker builder that wires a step list to a runner.

The model is functional:

- A build step is a pure function from the state bag (`map<string, Value>`) and the outcomes of the API calls it makes to a `StepResult`. That result holds the step's verdict (`Continue`/`Halt`), the new bag, the calls made in order, and the lines shown to the user.
- Errors are their message strings. Go's `fmt.Errorf("%s: %w", prefix, err)` is `Helper.Wrap`.
- Durations are integer nanoseconds. `int(d.Seconds())` is modelled as exact truncation toward zero (`LinodeConfig.WholeSeconds`). Go's conversion goes through a float64 and can differ for durations of 2^24 seconds or more; see "## Left out".
- Regular expressions are an abstract `RegexEngine` (`valid`, `matches`). A `regexp.MustCompile` panic is a precondition that the pattern compiles. The fixed tag pattern `^[[:alnum:]:_-]{1,255}$` is spelled out as a character class and a length bound.
- Go's nil pointers are `Option`. A dereference the source performs unguarded is a precondition.
- Module `Wrappers` gives `Option` and `Result`.
- Module `Api` gives the Linode API records the model needs and the `Call` log.
- Module `Multistep` gives the state bag and `Writes`, the "exactly these keys were written, nothing else changed" relation.

## Model

| member | source | states |
|---|---|---|
| Interfaces.FlattenConfigInterfaceIPv4 | builder/linode/step_create_linode.go:17-26 | nil IPv4 settings give nil options; otherwise the VPC and 1:1 NAT addresses are carried over |
| Interfaces.FlattenConfigInterface | builder/linode/step_create_linode.go:28-38 | flattening a legacy interface loses nothing: every field, including the IP ranges and nested IPv4 settings, is recovered from the options |
| Interfaces.FlattenConfigInterfaces | builder/linode/step_create_linode.go:163-170 | one option per configured interface, in order, each of which unflattens back to its interface |
| Interfaces.FlattenPublicAddresses | builder/linode/step_create_linode.go:45-55 | one option per IPv4 address, in order, with the same address and primary flag |
| Interfaces.FlattenPublicRanges | builder/linode/step_create_linode.go:56-65 | one option per IPv6 range, in order, with the same range |
| Interfaces.FlattenPublicInterface | builder/linode/step_create_linode.go:40-67 | nil stays nil; the IPv4 and IPv6 parts are present exactly when configured |
| Interfaces.PublicInterfaceRoundTrip | builder/linode/step_create_linode.go:40-67 | flattening the public interface is lossless: unflattening gives it back exactly |
| Interfaces.FlattenVpcAddresses | builder/linode/step_create_linode.go:80-84 | one option per VPC address, in order, carrying the address |
| Interfaces.FlattenVpcRanges | builder/linode/step_create_linode.go:85-89 | one option per VPC range, in order, carrying the range |
| Interfaces.FlattenVpcInterface | builder/linode/step_create_linode.go:69-93 | nil stays nil; the subnet ID is copied; the IPv4 part is present exactly when configured |
| Interfaces.VpcInterfaceRoundTrip | builder/linode/step_create_linode.go:69-93 | flattening keeps everything except each address's primary flag and 1:1 NAT address, which it drops: unflattening gives back the interface with exactly those cleared, and clearing them first does not change the options |
| Interfaces.FlattenVlanInterface | builder/linode/step_create_linode.go:95-106 | nil stays nil; the VLAN label and IPAM address are carried over |
| Interfaces.FlattenLinodeInterface | builder/linode/step_create_linode.go:108-123 | the firewall ID is always sent: a set firewall as its value, an unset one as an explicit null (`Some(None)`) |
| Interfaces.LinodeInterfaceRoundTrip | builder/linode/step_create_linode.go:108-123 | a Linode interface is recovered from its options up to the VPC address fields the flattening drops |
| Interfaces.FlattenLinodeInterfaces | builder/linode/step_create_linode.go:172-179 | one option per configured Linode interface, in order, each of which unflattens back to its interface minus the dropped VPC address fields |
| Interfaces.FlattenMetadata | builder/linode/step_create_linode.go:125-133 | no metadata options exactly when the user data is empty; otherwise the user data is passed through |
| Interfaces.MetadataRoundTrip | builder/linode/step_create_linode.go:125-133 | the metadata is recovered from its options |
| LinodeConfig.WholeSeconds | builder/linode/step_create_image.go:41-44 | a duration in whole seconds, truncated toward zero, for either sign (exact arithmetic; see "## Left out" for Go's float64 rounding) |
| LinodeConfig.AllTagChars | builder/linode/config.go:156-165 | true exactly when every character of the tag is in the tag class |
| LinodeConfig.MatchesTagPattern | builder/linode/config.go:156-165 | the tag pattern matches exactly the tags of 1 to 255 characters from the class |
| LinodeConfig.TagErrors | builder/linode/config.go:156-165 | each reported tag is a configured tag that does not match; every such tag is reported; no errors exactly when all tags match; a single tag yields its own error or none |
| LinodeConfig.TagErrorsCount | builder/linode/config.go:156-165 | an invalid tag is reported exactly as many times as it occurs |
| LinodeConfig.TagErrorsConcat | builder/linode/config.go:156-165 | the errors for a concatenation of tag lists are the errors of each part in order, so errors follow tag order |
| LinodeConfig.DefaultLabel | builder/linode/config.go:94-109 | a set label is kept; an empty one takes the rendered default, or stays empty with exactly the image-name or label rendering error when rendering fails |
| LinodeConfig.DefaultRootPass | builder/linode/config.go:111-117 | a set root password is kept; an empty one takes the generated password, or stays empty with a generation error |
| LinodeConfig.CommErrors | builder/linode/config.go:129-131 | the communicator's errors are appended one for one, in order |
| LinodeConfig.RequiredErrors | builder/linode/config.go:135-154 | one "is required" error for each of token, region, instance type and image exactly when it is empty, and nothing else |
| LinodeConfig.RequiredErrorsCount | builder/linode/config.go:135-154 | as many errors as empty required settings |
| LinodeConfig.RequiredErrorsInOrder | builder/linode/config.go:135-154 | the errors come in the order token, region, instance type, image |
| LinodeConfig.DefaultDuration | builder/linode/config.go:119-127 | a set timeout is kept and an unset (zero) one takes the default |
| LinodeConfig.ApplyDefaults | builder/linode/config.go:89-127 | the token falls back to the environment; nil tags become empty; region, instance type and image are untouched |
| LinodeConfig.DefaultErrors | builder/linode/config.go:94-117 | only rendering and password errors, and none exactly when no empty label fails to render and no empty password fails to generate |
| LinodeConfig.Prepare | builder/linode/config.go:72-83 | a decode failure returns at once; otherwise the configuration is prepared with its accumulated errors |
| LinodeConfig.PrepareDefaults | builder/linode/config.go:89-133 | unset timeouts become 5 and 10 minutes; the token and root password fall back; the SSH password is the root password; nil tags become empty; an empty image or instance label takes its rendered default, or stays empty when rendering fails; every other setting is as decoded |
| LinodeConfig.PrepareRequiredErrors | builder/linode/config.go:135-154 | each missing setting is reported independently; the token only when neither configured nor in the environment |
| LinodeConfig.PrepareTagErrors | builder/linode/config.go:156-165 | a tag is reported exactly when it is configured and does not match the pattern |
| LinodeConfig.TagErrorsRejectPunctuation | builder/linode/config.go:156-165 | of the tags "foo" and "bar=baz", only "bar=baz" is reported, because '=' is outside the tag class |
| LinodeConfig.PrepareFailsIff | builder/linode/config.go:85-172 | errors accumulate: preparation fails exactly when at least one problem is present |
| LinodeConfig.PrepareSuccessIsValid | builder/linode/config.go:119-165 | a successful preparation yields required settings present, timeouts non-zero, the SSH password equal to the root password, and all tags valid |
| LinodeConfig.PrepareFixpoint | builder/linode/config.go:72-173 | preparing an already settled configuration changes nothing and reports nothing |
| Helper.Wrap | helper/error.go:13 | the wrapped error text is the prefix, ": " and the cause, each readable back at fixed positions |
| Helper.ErrorHelper | helper/error.go:12-17 | stores the wrapped error under "error", shows the same text as an error line, halts, and writes no other key |
| StepCreateLinode.AuthorizedKeys | builder/linode/step_create_linode.go:181-186 | the SSH public key, when non-empty, comes first, followed by the configured keys in order |
| StepCreateLinode.CreateOptions | builder/linode/step_create_linode.go:145-186 | the root password is the SSH password; region, type, label (the instance label), image, tags, swap size, StackScript, private IP, firewall and interface generation are passed through; interface lists are sent exactly when non-empty and then carry each configured interface in order, recoverable from its option; metadata is sent exactly when user data is set and recovers it |
| StepCreateLinode.FindDisk | builder/linode/step_create_linode.go:214-225 | the first disk that is not swap; none exactly when every disk is swap |
| StepCreateLinode.Run | builder/linode/step_create_linode.go:135-212 | halts exactly when it stores an error, which is its last output line; continues exactly when all calls succeed and a non-swap disk exists; calls in fixed order up to the first failure, the wait using the state timeout in whole seconds |
| StepCreateLinode.Cleanup | builder/linode/step_create_linode.go:227-238 | deletes the stored instance only when one was stored; a failed delete is shown and nothing else is |
| StepCreateLinode.RunFailureBag | builder/linode/step_create_linode.go:188-211 | on each failure the bag gains exactly the error and whatever instance data was stored before it; never the disk |
| StepCreateLinode.RunSuccessBag | builder/linode/step_create_linode.go:188-211 | on success the bag gains exactly the running instance, the instance ID and the first non-swap disk |
| StepCreateLinode.RunThenCleanup | builder/linode/step_create_linode.go:188-238 | cleanup after a run deletes an instance exactly when creation succeeded, namely the last one the run stored |
| StepCreateImage.ImageOptions | builder/linode/step_create_image.go:31-35 | the image is created from the stored disk with the configured image label and description |
| StepCreateImage.Run | builder/linode/step_create_image.go:14-53 | the first failing call's error is stored and is the last output line, and later calls are skipped; on success only "image" is written, holding the re-fetched image; the wait uses the image-create timeout in whole seconds |
| StepCreateImage.Cleanup | builder/linode/step_create_image.go:55 | cleanup makes no call and shows nothing |
| LinodeArtifact.Id | builder/linode/artifact.go:28 | the artifact's ID is its image ID |
| LinodeArtifact.Files | builder/linode/artifact.go:27 | an image artifact has no files |
| LinodeArtifact.BuilderIdOf | builder/linode/artifact.go:26 | the artifact names the Linode builder |
| LinodeArtifact.Describe | builder/linode/artifact.go:30-32 | the description is "Linode image: ", the label, " (", the ID and ")", each at a fixed position |
| LinodeArtifact.StringData | builder/linode/artifact.go:49-64 | a generated-data value is read only when the map is set, holds the key and the value is a string |
| LinodeArtifact.RegistryLabels | builder/linode/artifact.go:49-64 | the registry labels are exactly the label keys present as strings in the generated data, with their values |
| LinodeArtifact.RegistryMetadata | builder/linode/artifact.go:47-77 | nil when the registry record cannot be built; otherwise provider "linode", the image ID, the source image and region read as strings or empty, and the labels |
| LinodeArtifact.State | builder/linode/artifact.go:34-39 | the registry name yields the registry record; any other name yields the stored value, nil when the data is nil or lacks it |
| LinodeArtifact.Destroy | builder/linode/artifact.go:41-45 | deletes the image once and returns the delete's outcome |
| DockerBuilder.Prepare | builder/docker/builder.go:17-42 | decode and template errors return at once without warnings; otherwise unused-key and configuration errors accumulate and warnings are always returned |
| DockerBuilder.Seed | builder/docker/builder.go:54-62 | the run starts with exactly the configuration, hook, UI and driver in the bag, and no error |
| DockerBuilder.ChooseRunner | builder/docker/builder.go:65-72 | the debug runner exactly when debugging is on, always over the five steps |
| DockerBuilder.StoredError | builder/docker/builder.go:76-79 | an error is reported exactly when the bag holds one, with its text |
| DockerBuilder.Run | builder/docker/builder.go:44-84 | fails exactly when the final bag holds an error, with that error; otherwise the artifact has the export path; the builder keeps its runner |
| DockerBuilder.Cancel | builder/docker/builder.go:86-91 | cancels the runner when one exists and nothing otherwise |
| DockerBuilder.CancelAfterRun | builder/docker/builder.go:65-91 | after a run, cancelling reaches exactly the runner the run chose |
| ImageFilter.FilterImages | datasource/image/filter.go:14-24 | an image is in the result exactly when it is in the input and passes; the result is no longer than the input |
| ImageFilter.FilterImagesIsFilter | datasource/image/filter.go:14-24 | the result is a subsequence of the input, holds only passing images, and holds each passing image as many times as the input does |
| ImageFilter.FilterImagesById | datasource/image/filter.go:26-31 | keeps exactly the images with the given ID, in order |
| ImageFilter.FilterImagesByIdRegex | datasource/image/filter.go:33-39 | keeps exactly the images whose ID matches the pattern, in order |
| ImageFilter.FilterImagesByLabelRegex | datasource/image/filter.go:41-47 | keeps exactly the images whose label matches the pattern, in order |
| ImageFilter.FilterExtensional | datasource/image/filter.go:14-24 | filtering depends only on which images the predicate accepts |
| ImageFilter.FilterFuse | datasource/image/filter.go:14-24 | filtering twice is filtering once by the conjunction |
| ImageFilter.FilterKeepAll | datasource/image/filter.go:14-24 | a predicate that accepts everything keeps the input unchanged |
| ImageFilter.ApplyFilters | datasource/image/filter.go:49-58 | the chain of active filters equals one filter by "passes every active filter" |
| ImageFilter.ApplyFiltersNoneActive | datasource/image/filter.go:49-58 | with no local filter set, every listed image survives |
| ImageFilter.FilterEmpty | datasource/image/filter.go:75-77 | nothing survives exactly when no input position passes |
| ImageFilter.FilterMany | datasource/image/filter.go:59-74 | more than one survives exactly when two distinct input positions pass |
| ImageFilter.Newest | datasource/image/filter.go:61-67 | a member with the greatest creation time, the first such in order |
| ImageFilter.Choose | datasource/image/filter.go:59-79 | none is "no image", several without latest is "multiple images", with latest the newest; a lone survivor is returned |
| ImageFilter.SelectImage | datasource/image/filter.go:49-80 | "no image" exactly when no listed image passes; "multiple" exactly when latest is off and two positions pass; a chosen image is a listed one that passes and, with latest, no passing image is newer |
| ImageFilter.SurvivorsPass | datasource/image/filter.go:49-58 | an image survives exactly when it is listed and passes every active filter |
| ImageFilter.SurvivorCount | datasource/image/filter.go:49-77 | the number of survivors, zero or more than one, in terms of passing input positions |
| ImageFilter.SelectImageSpec | datasource/image/filter.go:49-80 | the choice among survivors meets the selection contract stated over the listed images |
| ImageFilter.ChooseLatest | datasource/image/filter.go:59-67 | with latest, no survivor is newer than the chosen one |
| ImageDatasource.Configure | datasource/image/data.go:49-75 | a set token is kept; an empty one takes the environment's; the missing-token error occurs exactly when both are empty; nothing else changes |
| ImageDatasource.ApiFilter | datasource/image/data.go:144-152 | always status "available", last; the exact label exactly when one is set; nothing else |
| ImageDatasource.FormatOptional | datasource/image/data.go:192-198 | a nil time is the empty string; a present time is formatted |
| ImageDatasource.GetOutput | datasource/image/data.go:176-201 | the untimed fields are copied; created and updated are formatted; end-of-life and expiry are formatted when present and empty when nil |
| ImageDatasource.GetOutputOptionalTimes | datasource/image/data.go:192-198 | with a formatter that never yields "", end-of-life and expiry are empty exactly when absent |
| ImageDatasource.Outcome | datasource/image/data.go:168-173 | "No image found." when nothing passes; the multiple-images message when latest is off and two pass; success exactly when something passes and latest is on or only one passes, projecting the image the selection chose |
| ImageDatasource.Execute | datasource/image/data.go:131-174 | a client error with a CA path returns before any listing; otherwise the filter is sent, a listing error is returned as is, and the selection decides the result; patterns need to compile only when the listing succeeds |

## Left out

- The plugin's entry point, its HCL2 specification glue, the API client constructors (`helper/client.go`), logging and the log secret filter are not part of this model.
- Packer's configuration decoding and template interpolation are foreign. Their outcomes are parameters: `decoded` is the decoder's result, and `imageLabelRender`/`labelRender` are the rendered defaults.
- `os.Getenv` is the `envToken` parameter. The random root password (`createRandomRootPassword`, `crypto/rand`) is the `generatedPassword` parameter, where `None` means generation failed.
- The communicator's own validation is the `commErrors` parameter. `Comm.Password()` is modelled as the SSH password field.
- Every API call is recorded in the `Call` log, and its outcome is a field of the step's `Client` parameter. Timing, retries and the event poller's internals are not modelled.
- Time formatting (RFC 3339) is an abstract `format` function. `ImageDatasource.GetOutputOptionalTimes` assumes only that it never returns the empty string.
- Serialising the API filter to JSON is assumed to succeed. The filter is modelled as its list of fields.
- The runner and the step implementations behind the Docker builder are an abstract function from the runner and the seed bag to the final bag. The Docker steps themselves are not modelled.
- `ImageFilter.Newest`: the source orders the survivors with the unstable `sort.Slice` and takes the first. Among several images with the same newest creation time it may pick any of them; the model picks the first in list order. `ImageFilter.SelectImage` states only that no passing image is newer, which both satisfy.
- `ImageFilter.FilterImages`: the source starts from an empty, non-nil slice and appends in one pass. The model does not distinguish an empty slice from a nil one.
- LinodeConfig.WholeSeconds: Go computes `int(d.Seconds())` through a float64 (`float64(d/Second) + float64(d%Second)/1e9`), which can round up to the next second for durations of 2^24 seconds or more. For example, 16777216999999999 ns gives 16777217 in Go and 16777216 in the model. The model truncates exactly; the configured timeouts are far below that bound.
- `LinodeArtifact.RegistryMetadata`: the SDK's record constructor is abstract. Only its failure flag is a parameter, and the record's fields are modelled as the values the plugin passes in.
- `LinodeArtifact.BuilderIdOf`: the builder ID constant `packer.linode` and the registry state name `par.artifact.metadata` are defined outside the modelled files. Their values are taken as constants.
- The instance step reads configuration fields (firewall ID, metadata, interface generation, Linode interfaces) that `builder/linode/config.go` does not declare. The model adds them to `LinodeConfig.Config`.
- The image step calls a local `errorHelper` whose definition is not part of this model. It is modelled as `Helper.ErrorHelper`, the helper the instance step uses.
- A builder test (`builder/linode/builder_test.go:579-605`) expects the tags `bar=baz` and a punctuation-only tag to be accepted. The pattern in `builder/linode/config.go:157-163` rejects both. The model follows the code, and `LinodeConfig.TagErrorsRejectPunctuation` shows the rejection.
- Go `label` fields are named `labelText` in the model, because `label` is a keyword in Dafny.
- Datasource images whose creation or update time is nil would make the source panic. `ImageDatasource.Execute` requires the chosen image to have both times, and `ImageFilter.SelectImage` requires creation times on the survivors when `latest` orders several of them.
- The 255-character cap on tags is checked as a character count, which is what Go's regexp counts for valid UTF-8. Invalid UTF-8 is not modelled.
