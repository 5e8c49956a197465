/** Label keys, annotations and finalizers of pkg/constants. */
module Constants {
  const LABEL_PROJECT_UID := "loft.sh/vcluster-project-uid"
  const LABEL_PROJECT_NAME := "loft.sh/vcluster-project"
  const LABEL_HOST_CLUSTER := "loft.sh/vcluster-host-cluster"
  const LABEL_SERVICE_UID := "loft.sh/vcluster-service-uid"
  const LABEL_PARENT_PRTB := "loft.sh/parent-prtb"
  const LABEL_PARENT_CRTB := "loft.sh/parent-crtb"
  const LABEL_TARGET_APP := "loft.sh/target-app"
  const LABEL_AUTO_CREATED := "platform.vcluster.com/auto-created"
  const LABEL_RANCHER_PROJECT := "field.cattle.io/projectId"
  const LABEL_APP := "app"
  const LABEL_INSTALL_JOB := "vcluster.loft.sh/install-job"

  const ANNOTATION_SKIP_IMPORT := "loft.sh/vcluster-skip-import"
  const ANNOTATION_UNINSTALL := "loft.sh/uninstall-on-cluster-delete"
  const ANNOTATION_CUSTOM_NAME := "platform.vcluster.com/custom-name"
  const ANNOTATION_CUSTOM_PREFIX := "platform.vcluster.com/custom-name-prefix"
  const ANNOTATION_RELEASE_NAMESPACE := "meta.helm.sh/release-namespace"
  const ANNOTATION_RELEASE_NAME := "meta.helm.sh/release-name"

  const FINALIZER_APP := "loft.sh/vcluster-app-cleanup"

  const NO_RANCHER_PROJECT := "no-rancher-project-on-namespace"

  /** The labels the operator itself looks clusters up by. */
  predicate IsLookup(name: string) {
    name == LABEL_PROJECT_UID || name == LABEL_PROJECT_NAME
    || name == LABEL_HOST_CLUSTER || name == LABEL_SERVICE_UID
  }

  lemma LookupsDistinct()
    ensures LABEL_PROJECT_UID != LABEL_SERVICE_UID && LABEL_SERVICE_UID != LABEL_HOST_CLUSTER
    ensures LABEL_PROJECT_UID != LABEL_HOST_CLUSTER && LABEL_PROJECT_NAME != LABEL_PROJECT_UID
    ensures LABEL_PROJECT_NAME != LABEL_SERVICE_UID && LABEL_PROJECT_NAME != LABEL_HOST_CLUSTER
    ensures !IsLookup(LABEL_TARGET_APP)
  {
    assert LABEL_PROJECT_UID[17] != LABEL_SERVICE_UID[17];
  }
}
