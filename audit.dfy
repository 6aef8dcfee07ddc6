/** The audit helpers of lib/audit.ts: an append to the audit table that never
    fails its caller, and the readable description of an action. */
module Audit {
  import opened Common
  import opened Store

  /** The row `logAuditAction` asks the store to create; a missing entity id is
      stored as the empty string. */
  function EntryFor(action: AuditAction, entityId: Option<string>, entityType: EntityType,
                    description: string, userId: string, now: int): (e: AuditEntry)
    ensures e.action == action && e.entityType == entityType
    ensures e.description == description && e.userId == userId && e.createdAt == now
    ensures e.entityId == if entityId.Some? then entityId.value else ""
  {
    AuditEntry(action, OrElse(entityId, ""), entityType, description, userId, now)
  }

  /** `logAuditAction`: appends the entry when the store accepts the write; when
      the write fails the error is logged and swallowed, so the caller carries on
      with the audit table unchanged. Nothing but the audit table is touched. */
  method LogAuditAction(db: Db, action: AuditAction, entityId: Option<string>,
                        entityType: EntityType, description: string, userId: string, now: int)
    modifies db`audits
    ensures db.audits == if db.auditWritable
      then old(db.audits) + [EntryFor(action, entityId, entityType, description, userId, now)]
      else old(db.audits)
  {
    if db.auditWritable {
      db.audits := db.audits + [EntryFor(action, entityId, entityType, description, userId, now)];
    }
  }

  function ActionVerb(action: AuditAction): string {
    match action
    case CREATE => "создан"
    case UPDATE => "обновлен"
    case DELETE => "удален"
  }

  function EntityLabel(entityType: EntityType): string {
    match entityType
    case USER => "Пользователь"
    case SELLER => "Продавец"
    case CITY => "Город"
    case FISH => "Вид рыбы"
    case PRODUCT => "Товар"
    case MEDIA => "Медиа"
    case ORDER => "Заказ"
  }

  /** `getActionDescription`: `<label> "<name>" был <verb>`, defined for every
      action and every entity type. */
  function ActionDescription(action: AuditAction, entityType: EntityType, entityName: string): string {
    EntityLabel(entityType) + " \"" + entityName + "\" был " + ActionVerb(action)
  }

  /** The description starts with the entity label, ends with the verb, and
      carries the quoted name between them. */
  lemma DescriptionLayout(action: AuditAction, entityType: EntityType, entityName: string)
    ensures var d := ActionDescription(action, entityType, entityName);
      var lab := EntityLabel(entityType);
      var verb := ActionVerb(action);
      && |d| == |lab| + |entityName| + |verb| + 8
      && d[..|lab| + 2] == lab + " \""
      && d[|lab| + 2..|lab| + 2 + |entityName|] == entityName
      && d[|d| - |verb| - 6..] == "\" был " + verb
  {
  }

  /** The last six characters of each verb. */
  function VerbTail(action: AuditAction): string {
    match action
    case CREATE => "создан"
    case UPDATE => "новлен"
    case DELETE => "удален"
  }

  lemma VerbTailOf(action: AuditAction)
    ensures |ActionVerb(action)| >= 6
    ensures ActionVerb(action)[|ActionVerb(action)| - 6..] == VerbTail(action)
  {
  }

  /** The first two characters of each label. */
  function LabelHead(entityType: EntityType): string {
    match entityType
    case USER => "По"
    case SELLER => "Пр"
    case CITY => "Го"
    case FISH => "Ви"
    case PRODUCT => "То"
    case MEDIA => "Ме"
    case ORDER => "За"
  }

  lemma LabelHeadOf(entityType: EntityType)
    ensures |EntityLabel(entityType)| >= 2
    ensures EntityLabel(entityType)[..2] == LabelHead(entityType)
  {
  }

  lemma VerbTailInjective(a1: AuditAction, a2: AuditAction)
    requires VerbTail(a1) == VerbTail(a2)
    ensures a1 == a2
  {
  }

  /** Two equal concatenations agree on their last `k` characters. */
  lemma SameTail(p1: string, v1: string, p2: string, v2: string, k: nat)
    requires p1 + v1 == p2 + v2 && k <= |v1| && k <= |v2|
    ensures v1[|v1| - k..] == v2[|v2| - k..]
  {
    var d := p1 + v1;
    assert v1[|v1| - k..] == d[|d| - k..];
    assert v2[|v2| - k..] == (p2 + v2)[|d| - k..];
  }

  /** Equal concatenations with equal right parts have equal left parts. */
  lemma SameHead(p1: string, p2: string, v: string)
    requires p1 + v == p2 + v
    ensures p1 == p2
  {
    assert p1 == (p1 + v)[..|p1|];
    assert p2 == (p2 + v)[..|p2|];
  }

  /** A string ending in a verb tells which verb. */
  lemma ActionFromEnding(p1: string, a1: AuditAction, p2: string, a2: AuditAction)
    requires p1 + ActionVerb(a1) == p2 + ActionVerb(a2)
    ensures a1 == a2 && p1 == p2
  {
    VerbTailOf(a1);
    VerbTailOf(a2);
    SameTail(p1, ActionVerb(a1), p2, ActionVerb(a2), 6);
    VerbTailInjective(a1, a2);
    SameHead(p1, p2, ActionVerb(a1));
  }

  /** A string starting with a label tells which label. */
  lemma EntityFromStart(t1: EntityType, s1: string, t2: EntityType, s2: string)
    requires EntityLabel(t1) + s1 == EntityLabel(t2) + s2
    ensures t1 == t2 && s1 == s2
  {
    var d := EntityLabel(t1) + s1;
    LabelHeadOf(t1);
    LabelHeadOf(t2);
    assert d[..2] == EntityLabel(t1)[..2];
    assert d[..2] == EntityLabel(t2)[..2];
    assert LabelHead(t1) == LabelHead(t2);
    assert s1 == d[|EntityLabel(t1)|..] == s2;
  }

  lemma Regroup(l: string, a: string, n: string, b: string, v: string)
    ensures l + a + n + b + v == (l + (a + n + b)) + v
  {
  }

  lemma MiddleDetermined(a: string, n1: string, n2: string, b: string)
    requires a + n1 + b == a + n2 + b
    ensures n1 == n2
  {
    assert n1 == (a + n1 + b)[|a|..|a| + |n1|];
    assert n2 == (a + n2 + b)[|a|..|a| + |n2|];
  }

  /** A description determines the action, the entity type and the name it was
      made from: no two different audit events read the same. */
  lemma DescriptionInjective(a1: AuditAction, t1: EntityType, n1: string,
                             a2: AuditAction, t2: EntityType, n2: string)
    requires ActionDescription(a1, t1, n1) == ActionDescription(a2, t2, n2)
    ensures a1 == a2 && t1 == t2 && n1 == n2
  {
    var open, close := " \"", "\" был ";
    Regroup(EntityLabel(t1), open, n1, close, ActionVerb(a1));
    Regroup(EntityLabel(t2), open, n2, close, ActionVerb(a2));
    ActionFromEnding(EntityLabel(t1) + (open + n1 + close), a1, EntityLabel(t2) + (open + n2 + close), a2);
    EntityFromStart(t1, open + n1 + close, t2, open + n2 + close);
    MiddleDetermined(open, n1, n2, close);
  }
}
