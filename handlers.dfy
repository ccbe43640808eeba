/** pkg/controller/handlers.go: the stateless event handlers. They only log;
    what the model keeps is the image comparison `HandleUpdate` reports on
    and the `Spec.Replicas` dereference both Add and Update perform. */
module Handlers {
  import opened Api
  import opened Workload

  /** The images of the init containers, then of the main containers, in
      declaration order. */
  method ExtractImages(d: Deployment) returns (images: seq<string>)
    ensures |images| == |d.initContainers| + |d.containers|
    ensures forall k :: 0 <= k < |d.initContainers| ==> images[k] == d.initContainers[k].image
    ensures forall k :: 0 <= k < |d.containers| ==> images[|d.initContainers| + k] == d.containers[k].image
    ensures images == DeploymentImages(d)
  {
    images := [];
    for i := 0 to |d.initContainers|
      invariant images == ImagesOf(d.initContainers[..i])
    {
      assert d.initContainers[..i + 1] == d.initContainers[..i] + [d.initContainers[i]];
      images := images + [d.initContainers[i].image];
    }
    assert d.initContainers[..|d.initContainers|] == d.initContainers;
    for i := 0 to |d.containers|
      invariant images == ImagesOf(d.initContainers) + ImagesOf(d.containers[..i])
    {
      assert d.containers[..i + 1] == d.containers[..i] + [d.containers[i]];
      images := images + [d.containers[i].image];
    }
    assert d.containers[..|d.containers|] == d.containers;
  }

  /** Element-wise comparison with an early exit: equal exactly when the
      lengths agree and every position holds the same string. */
  method StringSlicesEqual(a: seq<string>, b: seq<string>) returns (eq: bool)
    ensures eq <==> |a| == |b| && forall i :: 0 <= i < |a| ==> a[i] == b[i]
    ensures eq <==> a == b
    ensures |a| != |b| ==> !eq
  {
    if |a| != |b| {
      return false;
    }
    for i := 0 to |a|
      invariant forall k :: 0 <= k < i ==> a[k] == b[k]
    {
      if a[i] != b[i] {
        return false;
      }
    }
    return true;
  }

  /** What an update event reports as changed. Both deployments' replica
      counts are dereferenced, so both must be set. */
  method HandleUpdate(oldDeployment: Deployment, newDeployment: Deployment) returns (replicasChanged: bool, imagesChanged: bool)
    requires oldDeployment.replicas.Some? && newDeployment.replicas.Some?
    ensures replicasChanged <==> oldDeployment.replicas.value != newDeployment.replicas.value
    ensures imagesChanged <==> DeploymentImages(oldDeployment) != DeploymentImages(newDeployment)
  {
    replicasChanged := oldDeployment.replicas.value != newDeployment.replicas.value;
    var oldImages := ExtractImages(oldDeployment);
    var newImages := ExtractImages(newDeployment);
    var same := StringSlicesEqual(oldImages, newImages);
    imagesChanged := !same;
  }
}
