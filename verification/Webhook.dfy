/** The validating webhook. */
module Webhook {
  import opened Cluster

  datatype Rule = ModelRequired | GpuRange | PartitionModeKnown | QuotaAtMost | QuotaAtLeast | CacheAtLeast

  predicate Violates(spec: Spec, rule: Rule) {
    match rule
    case ModelRequired => spec.modelName == ""
    case GpuRange => spec.gpu < 0 || spec.gpu > 8
    case PartitionModeKnown => spec.partitionMode != "MPS" && spec.partitionMode != "MIG"
    case QuotaAtMost => spec.tokenQuota > 100000
    case QuotaAtLeast => spec.tokenQuota < 1
    case CacheAtLeast => spec.kvCacheGB < 1
  }

  method Check(errors: seq<Rule>, violated: bool, rule: Rule) returns (longer: seq<Rule>)
    requires rule !in errors
    ensures forall r :: r in longer <==> r in errors || (violated && r == rule)
  {
    longer := if violated then errors + [rule] else errors;
  }

  /** `ValidateCreate`: all violated rules are reported and no others, and a spec is admitted when there are none. */
  method ValidateCreate(spec: Spec) returns (errors: seq<Rule>)
    ensures forall rule :: rule in errors <==> Violates(spec, rule)
    ensures errors == [] <==> Accepts(spec)
  {
    errors := Check([], spec.modelName == "", ModelRequired);
    errors := Check(errors, spec.gpu < 0 || spec.gpu > 8, GpuRange);
    errors := Check(errors, spec.partitionMode != "MPS" && spec.partitionMode != "MIG", PartitionModeKnown);
    errors := Check(errors, spec.tokenQuota > 100000, QuotaAtMost);
    errors := Check(errors, spec.tokenQuota < 1, QuotaAtLeast);
    errors := Check(errors, spec.kvCacheGB < 1, CacheAtLeast);
    if errors != [] {
      assert errors[0] in errors;
    }
  }
}
