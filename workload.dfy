/** What the controllers and the validators read out of a Deployment: the
    container images in declaration order and the policy flags set through
    container environment variables. */
module Workload {
  import opened Api

  const NoAutoCreation := "NO_AUTO_CREATION"
  const BypassCveDenied := "BYPASS_CVE_DENIED"

  /** Both flags are switched on by exactly "yes" or "true" (case-sensitive). */
  predicate Enabling(value: string) {
    value == "yes" || value == "true"
  }

  predicate SetsVar(e: EnvVar, flag: string) {
    e.name == flag && Enabling(e.value)
  }

  /** Some env entry of the container switches the flag on. */
  predicate ContainerSets(c: Container, flag: string) {
    exists l :: 0 <= l < |c.env| && SetsVar(c.env[l], flag)
  }

  predicate AnyContainerSets(cs: seq<Container>, flag: string) {
    exists k :: 0 <= k < |cs| && ContainerSets(cs[k], flag)
  }

  /** The flag is on when any init or main container sets it. */
  predicate FlagSet(d: Deployment, flag: string) {
    AnyContainerSets(d.initContainers, flag) || AnyContainerSets(d.containers, flag)
  }

  /** The images of a list of containers, in order. */
  function ImagesOf(cs: seq<Container>): (r: seq<string>)
    ensures |r| == |cs|
    ensures forall i :: 0 <= i < |cs| ==> r[i] == cs[i].image
  {
    seq(|cs|, i requires 0 <= i < |cs| => cs[i].image)
  }

  /** Init-container images first, then main-container images,
      duplicates kept. */
  function DeploymentImages(d: Deployment): seq<string> {
    ImagesOf(d.initContainers) + ImagesOf(d.containers)
  }

  /** The deployment's image list has one entry per container: entry k is
      the image of the k-th init container, or of the (k - #init)-th main
      container. */
  lemma DeploymentImagesAt(d: Deployment, k: nat)
    requires k < |d.initContainers| + |d.containers|
    ensures |DeploymentImages(d)| == |d.initContainers| + |d.containers|
    ensures DeploymentImages(d)[k] ==
      if k < |d.initContainers| then d.initContainers[k].image
      else d.containers[k - |d.initContainers|].image
  {
  }

  /** A flag set in one container is set for the whole deployment,
      wherever that container sits. */
  lemma FlagSetByOneContainer(d: Deployment, flag: string, c: Container, l: nat)
    requires c in d.initContainers || c in d.containers
    requires l < |c.env| && SetsVar(c.env[l], flag)
    ensures FlagSet(d, flag)
  {
    if c in d.initContainers {
      var k :| 0 <= k < |d.initContainers| && d.initContainers[k] == c;
      assert ContainerSets(d.initContainers[k], flag);
    } else {
      var k :| 0 <= k < |d.containers| && d.containers[k] == c;
      assert ContainerSets(d.containers[k], flag);
    }
  }
}
