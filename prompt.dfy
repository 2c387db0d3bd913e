/**
 * The prompt builder: how a user's profile and the course catalog are turned
 * into the text sections of the gap-analysis prompt, and what the quiz prompt
 * carries.
 */
module Prompt {
  import opened PyStr

  datatype Skill = Skill(name: string, level: int)
  datatype Certification = Certification(name: string, issuer: string, dateObtained: string)
  datatype Achievement = Achievement(title: string, description: string, date: string)
  datatype Course = Course(title: string, provider: string, level: string, relatedSkill: string)

  /**
   * What the chat-completion call receives for a gap analysis. The fixed
   * instruction paragraphs around these sections are constant text and are
   * not represented; the prompt is determined by these five fields.
   */
  datatype AnalysisPrompt = AnalysisPrompt(
    targetRole: string,
    skillsText: string,
    certificationsText: string,
    achievementsText: string,
    courseList: string)

  /** What the chat-completion call receives for a quiz: only the skill name varies. */
  datatype QuizPrompt = QuizPrompt(skill: string)

  /** `name (Level L/5)` */
  function SkillEntry(s: Skill): string {
    s.name + " (Level " + IntToString(s.level) + "/5)"
  }

  /** `- name from issuer (obtained: date)` */
  function CertificationLine(c: Certification): string {
    "- " + c.name + " from " + c.issuer + " (obtained: " + c.dateObtained + ")"
  }

  /** `- title: description (date)` */
  function AchievementLine(a: Achievement): string {
    "- " + a.title + ": " + a.description + " (" + a.date + ")"
  }

  /** `- title by provider (level) - focuses on skill` */
  function CourseLine(c: Course): string {
    "- " + c.title + " by " + c.provider + " (" + c.level + ") - focuses on " + c.relatedSkill
  }

  function SkillEntries(skills: seq<Skill>): seq<string>
  {
    seq(|skills|, i requires 0 <= i < |skills| => SkillEntry(skills[i]))
  }

  function CertificationLines(certs: seq<Certification>): seq<string>
  {
    seq(|certs|, i requires 0 <= i < |certs| => CertificationLine(certs[i]))
  }

  function AchievementLines(achievements: seq<Achievement>): seq<string>
  {
    seq(|achievements|, i requires 0 <= i < |achievements| => AchievementLine(achievements[i]))
  }

  function CourseLines(catalog: seq<Course>): seq<string>
  {
    seq(|catalog|, i requires 0 <= i < |catalog| => CourseLine(catalog[i]))
  }

  function SkillsText(skills: seq<Skill>): string {
    if |skills| == 0 then "None" else Join(", ", SkillEntries(skills))
  }

  function CertificationsText(certs: seq<Certification>): string {
    if |certs| == 0 then "None" else Join("\n", CertificationLines(certs))
  }

  function AchievementsText(achievements: seq<Achievement>): string {
    if |achievements| == 0 then "None" else Join("\n", AchievementLines(achievements))
  }

  /** The catalog has no "None" fallback: an empty catalog renders as "". */
  function CourseList(catalog: seq<Course>): string {
    Join("\n", CourseLines(catalog))
  }

  function RenderAnalysisPrompt(
    skills: seq<Skill>, certs: seq<Certification>, achievements: seq<Achievement>,
    targetRole: string, catalog: seq<Course>): AnalysisPrompt
  {
    AnalysisPrompt(targetRole, SkillsText(skills), CertificationsText(certs),
                   AchievementsText(achievements), CourseList(catalog))
  }

  /** "None" in the skills section means exactly that the user has no skills. */
  lemma SkillsTextNoneIffEmpty(skills: seq<Skill>)
    ensures SkillsText(skills) == "None" <==> |skills| == 0
  {
    if |skills| > 0 {
      var entries := SkillEntries(skills);
      JoinEnds(", ", entries);
      var last := entries[|entries| - 1];
      assert last[|last| - 1] == ')';
      var t := Join(", ", entries);
      assert t[|t| - 1] == last[|last| - 1];
    }
  }

  /** "None" in the certifications and achievements sections means an empty list. */
  lemma BulletSectionsNoneIffEmpty(certs: seq<Certification>, achievements: seq<Achievement>)
    ensures CertificationsText(certs) == "None" <==> |certs| == 0
    ensures AchievementsText(achievements) == "None" <==> |achievements| == 0
  {
    if |certs| > 0 {
      var lines := CertificationLines(certs);
      JoinEnds("\n", lines);
      assert lines[0][0] == '-';
      assert Join("\n", lines)[0] == lines[0][0];
    }
    if |achievements| > 0 {
      var lines := AchievementLines(achievements);
      JoinEnds("\n", lines);
      assert lines[0][0] == '-';
      assert Join("\n", lines)[0] == lines[0][0];
    }
  }

  /** The course list is empty exactly when the catalog is. */
  lemma CourseListEmptyIffNoCourses(catalog: seq<Course>)
    ensures CourseList(catalog) == "" <==> |catalog| == 0
  {
    if |catalog| > 0 {
      var lines := CourseLines(catalog);
      JoinEnds("\n", lines);
      assert |lines[0]| > 0;
    }
  }

  /**
   * Skills are rendered in input order: the text for `xs + ys` is the text
   * for `xs`, a comma separator, then the text for `ys`.
   */
  lemma SkillsTextInOrder(xs: seq<Skill>, ys: seq<Skill>)
    requires |xs| > 0 && |ys| > 0
    ensures SkillsText(xs + ys) == SkillsText(xs) + ", " + SkillsText(ys)
  {
    assert SkillEntries(xs + ys) == SkillEntries(xs) + SkillEntries(ys);
    JoinConcat(", ", SkillEntries(xs), SkillEntries(ys));
  }

  predicate NoNewline(s: string) {
    '\n' !in s
  }

  lemma NoNewlineConcat(x: string, y: string)
    requires NoNewline(x) && NoNewline(y)
    ensures NoNewline(x + y)
  {
  }

  lemma CertificationLineIsOneLine(c: Certification)
    requires NoNewline(c.name) && NoNewline(c.issuer) && NoNewline(c.dateObtained)
    ensures NoNewline(CertificationLine(c))
  {
    NoNewlineConcat("- ", c.name);
    NoNewlineConcat("- " + c.name, " from ");
    NoNewlineConcat("- " + c.name + " from ", c.issuer);
    NoNewlineConcat("- " + c.name + " from " + c.issuer, " (obtained: ");
    NoNewlineConcat("- " + c.name + " from " + c.issuer + " (obtained: ", c.dateObtained);
    NoNewlineConcat("- " + c.name + " from " + c.issuer + " (obtained: " + c.dateObtained, ")");
  }

  lemma AchievementLineIsOneLine(a: Achievement)
    requires NoNewline(a.title) && NoNewline(a.description) && NoNewline(a.date)
    ensures NoNewline(AchievementLine(a))
  {
    NoNewlineConcat("- ", a.title);
    NoNewlineConcat("- " + a.title, ": ");
    NoNewlineConcat("- " + a.title + ": ", a.description);
    NoNewlineConcat("- " + a.title + ": " + a.description, " (");
    NoNewlineConcat("- " + a.title + ": " + a.description + " (", a.date);
    NoNewlineConcat("- " + a.title + ": " + a.description + " (" + a.date, ")");
  }

  lemma CourseLineIsOneLine(c: Course)
    requires NoNewline(c.title) && NoNewline(c.provider) && NoNewline(c.level) && NoNewline(c.relatedSkill)
    ensures NoNewline(CourseLine(c))
  {
    NoNewlineConcat("- ", c.title);
    NoNewlineConcat("- " + c.title, " by ");
    NoNewlineConcat("- " + c.title + " by ", c.provider);
    NoNewlineConcat("- " + c.title + " by " + c.provider, " (");
    NoNewlineConcat("- " + c.title + " by " + c.provider + " (", c.level);
    NoNewlineConcat("- " + c.title + " by " + c.provider + " (" + c.level, ") - focuses on ");
    NoNewlineConcat("- " + c.title + " by " + c.provider + " (" + c.level + ") - focuses on ", c.relatedSkill);
  }

  /**
   * Each certification, achievement and course occupies one line of its
   * section, in input order, as long as its fields hold no line break.
   */
  lemma BulletSectionsOneLineEach(certs: seq<Certification>, achievements: seq<Achievement>, catalog: seq<Course>)
    requires forall c :: c in certs ==> NoNewline(c.name) && NoNewline(c.issuer) && NoNewline(c.dateObtained)
    requires forall a :: a in achievements ==> NoNewline(a.title) && NoNewline(a.description) && NoNewline(a.date)
    requires forall c :: c in catalog ==> NoNewline(c.title) && NoNewline(c.provider) && NoNewline(c.level) && NoNewline(c.relatedSkill)
    ensures |certs| > 0 ==> Split(CertificationsText(certs), '\n') == CertificationLines(certs)
    ensures |achievements| > 0 ==> Split(AchievementsText(achievements), '\n') == AchievementLines(achievements)
    ensures |catalog| > 0 ==> Split(CourseList(catalog), '\n') == CourseLines(catalog)
  {
    if |certs| > 0 {
      var lines := CertificationLines(certs);
      forall i | 0 <= i < |lines| ensures '\n' !in lines[i] {
        assert certs[i] in certs;
        CertificationLineIsOneLine(certs[i]);
      }
      SplitJoin(lines, '\n');
    }
    if |achievements| > 0 {
      var lines := AchievementLines(achievements);
      forall i | 0 <= i < |lines| ensures '\n' !in lines[i] {
        assert achievements[i] in achievements;
        AchievementLineIsOneLine(achievements[i]);
      }
      SplitJoin(lines, '\n');
    }
    if |catalog| > 0 {
      var lines := CourseLines(catalog);
      forall i | 0 <= i < |lines| ensures '\n' !in lines[i] {
        assert catalog[i] in catalog;
        CourseLineIsOneLine(catalog[i]);
      }
      SplitJoin(lines, '\n');
    }
  }
}
