/**
 * DockerCloud: admission (canProvision against the instance cap), the count of
 * the plugin's running containers, image selection by label, planning new
 * nodes, the image list, and the cloud form validators.
 */
module Cloud {
  import opened JavaLang
  import opened DockerApi
  import opened Image

  /**
   * A Jenkins label asked to match a label string, i.e.
   * `label.matches(Label.parse(labelString))`; the label-expression language
   * itself is left abstract. A null label is None.
   */
  type LabelExpr = JString -> bool

  /** One entry of provision()'s result: the display name, the work submitted and one executor. */
  datatype PlannedNode = PlannedNode(displayName: string, client: DockerClient, image: DockerImage, numExecutors: int)

  /** dockerImageMatchesLabel: a null label takes the NORMAL-mode images, any other label asks the label expression. */
  predicate MatchesLabel(image: DockerImage, requested: Option<LabelExpr>)
    reads image
  {
    if requested.None? then image.mode == Normal else requested.value(image.labelString)
  }

  /** Position of the first image matching the label, or -1: what findDockerImageForLabel returns. */
  function FirstMatch(images: seq<DockerImage>, requested: Option<LabelExpr>): (k: int)
    reads images
    ensures -1 <= k < |images|
    ensures k == -1 <==> forall j :: 0 <= j < |images| ==> !MatchesLabel(images[j], requested)
    ensures k >= 0 ==> MatchesLabel(images[k], requested)
    ensures k >= 0 ==> forall j :: 0 <= j < k ==> !MatchesLabel(images[j], requested)
  {
    if images == [] then -1
    else if MatchesLabel(images[0], requested) then 0
    else
      var j := FirstMatch(images[1..], requested);
      assert forall i :: 1 <= i < |images| ==> images[i] == images[1..][i - 1];
      if j < 0 then -1 else j + 1
  }

  /** A null label matches an image exactly when the image is in NORMAL mode. */
  lemma NullLabelMatchesNormal(images: seq<DockerImage>)
    ensures FirstMatch(images, None) >= 0 <==> exists j :: 0 <= j < |images| && images[j].mode == Normal
  {
    if FirstMatch(images, None) == -1 {
      assert forall j :: 0 <= j < |images| ==> !MatchesLabel(images[j], None);
    }
  }

  /** `'/' + containerNamePrefix`: a null prefix is printed as "null". */
  function MatchPrefix(containerNamePrefix: JString): (m: string)
    ensures |m| >= 1 && m[0] == '/'
    ensures m[1..] == ToJavaString(containerNamePrefix)
  {
    "/" + ToJavaString(containerNamePrefix)
  }

  /** The counting test: a non-empty names list whose last name starts with the match string. */
  predicate IsCounted(c: Container, matchPrefix: string) {
    |c.names| > 0 && StartsWith(c.names[|c.names| - 1], matchPrefix)
  }

  /** How many of the listed containers countRunningContainers counts. */
  function CountMatching(containers: seq<Container>, matchPrefix: string): (n: nat)
    ensures n <= |containers|
  {
    if containers == [] then 0
    else
      CountMatching(containers[..|containers| - 1], matchPrefix)
      + (if IsCounted(containers[|containers| - 1], matchPrefix) then 1 else 0)
  }

  /** The count is the size of the set of counted positions. */
  lemma {:induction false} CountMatchingIsCardinality(containers: seq<Container>, matchPrefix: string)
    ensures CountMatching(containers, matchPrefix)
      == |set k | 0 <= k < |containers| && IsCounted(containers[k], matchPrefix)|
  {
    if containers != [] {
      var init := containers[..|containers| - 1];
      var last := |containers| - 1;
      CountMatchingIsCardinality(init, matchPrefix);
      var before := set k | 0 <= k < |init| && IsCounted(init[k], matchPrefix);
      var after := set k | 0 <= k < |containers| && IsCounted(containers[k], matchPrefix);
      assert forall k :: 0 <= k < |init| ==> init[k] == containers[k];
      if IsCounted(containers[last], matchPrefix) {
        assert after == before + {last};
      } else {
        assert after == before;
      }
    }
  }

  /** When every listed container is counted, the count is the number listed. */
  lemma {:induction false} AllCountedCountsAll(containers: seq<Container>, matchPrefix: string)
    requires forall k :: 0 <= k < |containers| ==> IsCounted(containers[k], matchPrefix)
    ensures CountMatching(containers, matchPrefix) == |containers|
  {
    if containers != [] {
      var init := containers[..|containers| - 1];
      assert forall k :: 0 <= k < |init| ==> init[k] == containers[k];
      AllCountedCountsAll(init, matchPrefix);
    }
  }

  /**
   * With an empty prefix the match string is "/", which every Docker container
   * name starts with: every container on the daemon is counted, the plugin's
   * or not.
   */
  lemma EmptyPrefixCountsEveryContainer(containers: seq<Container>)
    requires forall k :: 0 <= k < |containers| ==>
      |containers[k].names| > 0 && StartsWith(containers[k].names[|containers[k].names| - 1], "/")
    ensures CountMatching(containers, MatchPrefix(Some(""))) == |containers|
  {
    assert MatchPrefix(Some("")) == "/";
    AllCountedCountsAll(containers, "/");
  }

  /**
   * countRunningContainers on a freshly built client: the build failure, the
   * listing failure, or the count of the listed containers.
   */
  function CountOutcome(endpoint: Endpoint, containerNamePrefix: JString): (r: Outcome<int>)
    ensures r.Returned? ==> r.value >= 0
    ensures endpoint.buildFailure.Some? ==> r == Threw(endpoint.buildFailure.value)
  {
    if endpoint.buildFailure.Some? then Threw(endpoint.buildFailure.value)
    else
      match endpoint.runtime.listContainers([])
      case ListFailed(e) => Threw(e)
      case Listed(containers) => Returned(CountMatching(containers, MatchPrefix(containerNamePrefix)))
  }

  /** The exceptions canProvision catches while counting. */
  predicate IsCaughtByCanProvision(e: Exception) {
    IsDockerException(e) || e.InterruptedException? || e.DockerCertificateException?
  }

  /**
   * canProvision from the counting outcome, the cap and whether an image
   * matches: true exactly when the count is below the cap and an image
   * matches; false on every caught counting error; anything else propagates.
   */
  function CanProvisionDecision(count: Outcome<int>, instanceCap: int, imageMatches: bool): (r: Outcome<bool>)
    ensures r == Returned(true) <==> count.Returned? && count.value < instanceCap && imageMatches
    ensures count.Returned? && count.value >= instanceCap ==> r == Returned(false)
    ensures count.Threw? && IsCaughtByCanProvision(count.exception) ==> r == Returned(false)
    ensures r.Threw? <==> count.Threw? && !IsCaughtByCanProvision(count.exception)
    ensures r.Threw? ==> r.exception == count.exception
  {
    match count
    case Threw(e) => if IsCaughtByCanProvision(e) then Returned(false) else Threw(e)
    case Returned(n) => if n >= instanceCap then Returned(false) else Returned(imageMatches)
  }

  /** Counting errors never admit a node: canProvision fails closed. */
  lemma CanProvisionFailsClosed(endpoint: Endpoint, containerNamePrefix: JString, instanceCap: int, imageMatches: bool)
    ensures CountOutcome(endpoint, containerNamePrefix).Threw? ==>
      CanProvisionDecision(CountOutcome(endpoint, containerNamePrefix), instanceCap, imageMatches) != Returned(true)
  {
  }

  class DockerCloud {
    const name: string
    const instanceCap: int
    /** What the cloud's uri, TLS flag and certificates path lead to when a client is built. */
    const endpoint: Endpoint
    var containerNamePrefix: JString
    var images: seq<DockerImage>
    /** The cloud was built with a null list: its list is Collections.emptyList(), which refuses add. */
    const imagesFixedEmpty: bool

    constructor (name: string, instanceCap: int, endpoint: Endpoint, images: Option<seq<DockerImage>>,
                 containerNamePrefix: JString)
      ensures this.name == name && this.instanceCap == instanceCap && this.endpoint == endpoint
      ensures this.containerNamePrefix == containerNamePrefix
      ensures images.None? ==> this.images == [] && imagesFixedEmpty
      ensures images.Some? ==> this.images == images.value && !imagesFixedEmpty
    {
      this.name := name;
      this.instanceCap := instanceCap;
      this.endpoint := endpoint;
      this.containerNamePrefix := containerNamePrefix;
      if images.None? {
        this.images := [];
        imagesFixedEmpty := true;
      } else {
        this.images := images.value;
        imagesFixedEmpty := false;
      }
    }

    method SetContainerNamePrefix(containerNamePrefix: JString)
      modifies this`containerNamePrefix
      ensures this.containerNamePrefix == containerNamePrefix
    {
      this.containerNamePrefix := containerNamePrefix;
    }

    /** buildDockerClient: a fresh client on the cloud's daemon, or the exception building it threw. */
    method BuildDockerClient() returns (r: Outcome<DockerClient>)
      ensures r.Threw? <==> endpoint.buildFailure.Some?
      ensures r.Threw? ==> r.exception == endpoint.buildFailure.value
      ensures r.Returned? ==> fresh(r.value) && r.value.runtime == endpoint.runtime && r.value.calls == []
    {
      if endpoint.buildFailure.Some? {
        return Threw(endpoint.buildFailure.value);
      }
      var client := new DockerClient(endpoint.runtime);
      r := Returned(client);
    }

    /**
     * countRunningContainers: lists the containers on a fresh client and
     * counts those whose last name starts with '/' + prefix; the client, once
     * built, is closed whatever the listing did.
     */
    method CountRunningContainers() returns (r: Outcome<int>, ghost calls: seq<Request>)
      ensures r == CountOutcome(endpoint, containerNamePrefix)
      ensures endpoint.buildFailure.Some? ==> calls == []
      ensures endpoint.buildFailure.None? ==> calls == [Request.ListContainers, Request.Close]
    {
      var built := BuildDockerClient();
      if built.Threw? {
        return Threw(built.exception), [];
      }
      var client := built.value;
      var matchPrefix := "/" + ToJavaString(containerNamePrefix);
      var listed := client.ListContainers();
      if listed.ListFailed? {
        client.Close();
        return Threw(listed.error), client.calls;
      }
      var containers := listed.containers;
      var count := 0;
      var i := 0;
      while i < |containers|
        invariant 0 <= i <= |containers|
        invariant count == CountMatching(containers[..i], matchPrefix)
      {
        var c := containers[i];
        assert containers[..i + 1][..i] == containers[..i];
        if |c.names| > 0 && StartsWith(c.names[|c.names| - 1], matchPrefix) {
          count := count + 1;
        }
        i := i + 1;
      }
      assert containers[..i] == containers;
      client.Close();
      r, calls := Returned(count), client.calls;
    }

    /** findDockerImageForLabel: the first image in list order that matches the label, or null. */
    method FindDockerImageForLabel(requested: Option<LabelExpr>) returns (r: DockerImage?)
      ensures FirstMatch(images, requested) == -1 ==> r == null
      ensures FirstMatch(images, requested) >= 0 ==> r == images[FirstMatch(images, requested)]
    {
      var i := 0;
      while i < |images|
        invariant 0 <= i <= |images|
        invariant forall j :: 0 <= j < i ==> !MatchesLabel(images[j], requested)
      {
        var image := images[i];
        var matches := if requested.None? then image.mode == Normal else requested.value(image.labelString);
        if matches {
          return image;
        }
        i := i + 1;
      }
      r := null;
    }

    /** canProvision: below the instance cap and some image matches; counting errors refuse. */
    method CanProvision(requested: Option<LabelExpr>) returns (r: Outcome<bool>)
      ensures r == CanProvisionDecision(CountOutcome(endpoint, containerNamePrefix), instanceCap, FirstMatch(images, requested) >= 0)
    {
      var count, _ := CountRunningContainers();
      if count.Threw? {
        if IsDockerException(count.exception) || count.exception.InterruptedException?
          || count.exception.DockerCertificateException? {
          return Returned(false);
        }
        return Threw(count.exception);
      }
      if count.value >= instanceCap {
        return Returned(false);
      }
      var foundImage := FindDockerImageForLabel(requested);
      r := Returned(foundImage != null);
    }

    /**
     * provision: nothing when no image matches or building a client hits a
     * certificate problem; otherwise one planned node per unit of excess
     * workload, each with a client of its own, for the first matching image.
     */
    method Provision(requested: Option<LabelExpr>, excessWorkload: int) returns (r: Outcome<seq<PlannedNode>>)
      ensures FirstMatch(images, requested) == -1 ==> r == Returned([])
      ensures FirstMatch(images, requested) >= 0 && excessWorkload >= 1 && endpoint.buildFailure == Some(DockerCertificateException)
        ==> r == Returned([])
      ensures FirstMatch(images, requested) >= 0 && excessWorkload >= 1 && endpoint.buildFailure.Some?
        && endpoint.buildFailure != Some(DockerCertificateException)
        ==> r == Threw(endpoint.buildFailure.value)
      ensures FirstMatch(images, requested) >= 0 && (excessWorkload < 1 || endpoint.buildFailure.None?)
        ==> r.Returned? && |r.value| == if excessWorkload < 0 then 0 else excessWorkload
      ensures r.Returned? ==> forall i :: 0 <= i < |r.value| ==>
        var node := r.value[i];
        node.displayName == name && node.image == images[FirstMatch(images, requested)] && node.numExecutors == 1
        && fresh(node.client) && node.client.runtime == endpoint.runtime && node.client.calls == []
      ensures r.Returned? ==> forall i, j :: 0 <= i < j < |r.value| ==> r.value[i].client != r.value[j].client
    {
      var foundImage := FindDockerImageForLabel(requested);
      if foundImage == null {
        return Returned([]);
      }
      var plannedNodes: seq<PlannedNode> := [];
      var i := 1;
      while i <= excessWorkload
        invariant 1 <= i <= (if excessWorkload < 0 then 0 else excessWorkload) + 1
        invariant |plannedNodes| == i - 1
        invariant i > 1 ==> endpoint.buildFailure.None?
        invariant forall j :: 0 <= j < |plannedNodes| ==>
          var node := plannedNodes[j];
          node.displayName == name && node.image == foundImage && node.numExecutors == 1
          && fresh(node.client) && node.client.runtime == endpoint.runtime && node.client.calls == []
        invariant forall j, k :: 0 <= j < k < |plannedNodes| ==> plannedNodes[j].client != plannedNodes[k].client
        decreases excessWorkload - i
      {
        var built := BuildDockerClient();
        if built.Threw? {
          if built.exception == DockerCertificateException {
            return Returned([]);
          }
          return Threw(built.exception);
        }
        plannedNodes := plannedNodes + [PlannedNode(name, built.value, foundImage, 1)];
        i := i + 1;
      }
      r := Returned(plannedNodes);
    }

    /** addImage: appends, or throws when the list is the immutable empty list. */
    method AddImage(image: DockerImage) returns (r: Outcome<()>)
      modifies this`images
      ensures imagesFixedEmpty ==> r == Threw(UnsupportedOperationException) && images == old(images)
      ensures !imagesFixedEmpty ==> r == Returned(()) && images == old(images) + [image]
    {
      if imagesFixedEmpty {
        return Threw(UnsupportedOperationException);
      }
      images := images + [image];
      r := Returned(());
    }

    /** removeImage: drops the first occurrence of that very image object, if any. */
    method RemoveImage(image: DockerImage)
      modifies this`images
      ensures images == ListRemove(old(images), image)
    {
      images := ListRemove(images, image);
    }

    /** readResolve: each image's readResolve returns the image unchanged; the cloud returns itself. */
    method ReadResolve() returns (r: DockerCloud)
      ensures r == this
    {
      r := this;
    }
  }

  /** Removing an image and adding it back keeps the same images, possibly in another order. */
  lemma RemoveThenAddSameImages(images: seq<DockerImage>, image: DockerImage)
    requires image in images
    ensures multiset(ListRemove(images, image) + [image]) == multiset(images)
  {
  }

  /** Removing an image that is not in the list changes nothing. */
  lemma RemoveAbsentIsNoOp(images: seq<DockerImage>, image: DockerImage)
    requires image !in images
    ensures ListRemove(images, image) == images
  {
  }

  /** DescriptorImpl.doCheckName */
  function DoCheckName(name: JString): (r: FormValidation)
    ensures r.Error? <==> name.None? || name.value == ""
    ensures r.Error? ==> r.message == "Required"
  {
    CheckRequired(name)
  }

  /** DescriptorImpl.doCheckInstanceCapStr: the same checks as the image descriptor's. */
  function DoCheckInstanceCapStr(instanceCapStr: JString): (r: Outcome<FormValidation>)
    ensures r == Returned(Error("Required")) <==> IsNullOrEmpty(instanceCapStr)
    ensures r == Returned(Error("Must be a number")) <==> !IsNullOrEmpty(instanceCapStr) && !IsDigits(instanceCapStr.value)
    ensures r == Returned(Error("Must be at least one.")) <==>
      instanceCapStr.Some? && IsDigits(instanceCapStr.value) && DigitsValue(instanceCapStr.value) == 0
    ensures r == Threw(NumberFormatException) <==>
      instanceCapStr.Some? && IsDigits(instanceCapStr.value) && DigitsValue(instanceCapStr.value) > IntMax
    ensures r == Returned(Ok) <==>
      instanceCapStr.Some? && IsDigits(instanceCapStr.value) && 1 <= DigitsValue(instanceCapStr.value) <= IntMax
  {
    Image.DoCheckInstanceCapStr(instanceCapStr)
  }

  /**
   * DescriptorImpl.doCheckContainerNamePrefix as written: the error for a
   * blank prefix is built and dropped, so every prefix passes.
   */
  function DoCheckContainerNamePrefixAsWritten(containerNamePrefix: JString): (r: FormValidation)
    ensures r == Ok
  {
    if IsNullOrEmpty(containerNamePrefix) then
      var _ := Error("Required");
      Ok
    else Ok
  }

  /** The validator as written accepts the empty and the null prefix. */
  lemma BlankPrefixPasses()
    ensures DoCheckContainerNamePrefixAsWritten(Some("")) == Ok
    ensures DoCheckContainerNamePrefixAsWritten(None) == Ok
    ensures CheckRequired(Some("")) == Error("Required")
  {
  }

  /** doCheckContainerNamePrefix as evidently intended: the error is returned. */
  function DoCheckContainerNamePrefix(containerNamePrefix: JString): (r: FormValidation)
    ensures r.Error? <==> containerNamePrefix.None? || containerNamePrefix.value == ""
    ensures r.Error? ==> r.message == "Required"
  {
    if IsNullOrEmpty(containerNamePrefix) then Error("Required") else Ok
  }

  /**
   * A prefix the corrected validator accepts gives a match string longer than
   * "/", so the count no longer takes every container on the daemon.
   */
  lemma AcceptedPrefixNarrowsMatch(containerNamePrefix: JString)
    requires DoCheckContainerNamePrefix(containerNamePrefix) == Ok
    ensures |MatchPrefix(containerNamePrefix)| >= 2
    ensures !StartsWith("/", MatchPrefix(containerNamePrefix))
  {
  }
}
