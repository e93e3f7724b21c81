/** The server actions of app/actions/ai-resume.ts: the three prompt templates and the parse
    of the comma-separated skill list the model answers with. `generateText` itself is a
    foreign call; each action is modelled as the prompt it sends and, for skill suggestions,
    the parse applied to the text that comes back. A template literal is modelled as its
    lines joined by "\n". */
module AiPrompts {
  import opened Optional
  import opened JsStrings
  import Seqs

  const NewLine := "\n"

  const SummaryOpening := "Write a professional resume summary (2-3 sentences, max 50 words) for "
  const SummaryClosing := "Write in first person, be concise and impactful. Focus on value proposition."

  /** The lines of the `generateSummary` prompt. */
  function SummaryLines(fullName: string, jobTitles: seq<string>, skills: seq<string>): (r: seq<string>)
    ensures |r| == 4
    ensures r[1] == "" <==> |jobTitles| == 0
    ensures r[2] == "" <==> |skills| == 0
  {
    [ SummaryOpening + OrElse(fullName, "a professional") + ". ",
      if |jobTitles| > 0 then "Recent job titles: " + Join(jobTitles, ", ") + "." else "",
      if |skills| > 0 then "Key skills: " + Join(skills, ", ") + "." else "",
      SummaryClosing ]
  }

  function SummaryPrompt(fullName: string, jobTitles: seq<string>, skills: seq<string>): string {
    Join(SummaryLines(fullName, jobTitles, skills), NewLine)
  }

  /** The string `Join` puts between the lines of a four-line prompt, line by line. */
  lemma JoinFour(a: string, b: string, c: string, d: string, sep: string)
    ensures Join([a, b, c, d], sep) == a + sep + (b + sep + (c + sep + d))
  {
    assert [a, b, c, d][1..] == [b, c, d];
    assert [b, c, d][1..] == [c, d];
    assert [c, d][1..] == [d];
    assert Join([c, d], sep) == c + sep + d;
    assert Join([b, c, d], sep) == b + sep + (c + sep + d);
  }

  /** A prompt mentions each of its lines. */
  lemma LinesIncluded(a: string, b: string, c: string, d: string)
    ensures var prompt := Join([a, b, c, d], NewLine);
      Includes(prompt, a) && Includes(prompt, b) && Includes(prompt, c) && Includes(prompt, d)
  {
    JoinIncludes([a, b, c, d], NewLine, 0);
    JoinIncludes([a, b, c, d], NewLine, 1);
    JoinIncludes([a, b, c, d], NewLine, 2);
    JoinIncludes([a, b, c, d], NewLine, 3);
  }

  /** `s` occurs in `pre + s + post`, for any text around it. */
  lemma IncludesWithin(s: string, pre: string, post: string, whole: string)
    requires whole == pre + s + post
    ensures Includes(whole, s)
  {
    IncludesInMiddle(pre, s, post);
  }

  /** The summary prompt names the person, or "a professional" for an empty name, and
      mentions every job title and every skill. */
  lemma SummaryPromptMentions(fullName: string, jobTitles: seq<string>, skills: seq<string>)
    ensures Includes(SummaryPrompt(fullName, jobTitles, skills), OrElse(fullName, "a professional"))
    ensures forall i :: 0 <= i < |jobTitles| ==> Includes(SummaryPrompt(fullName, jobTitles, skills), jobTitles[i])
    ensures forall i :: 0 <= i < |skills| ==> Includes(SummaryPrompt(fullName, jobTitles, skills), skills[i])
  {
    var lines := SummaryLines(fullName, jobTitles, skills);
    var prompt := SummaryPrompt(fullName, jobTitles, skills);
    LinesIncluded(lines[0], lines[1], lines[2], lines[3]);
    assert lines == [lines[0], lines[1], lines[2], lines[3]];
    var who := OrElse(fullName, "a professional");
    IncludesWithin(who, SummaryOpening, ". ", lines[0]);
    IncludesTransitive(prompt, lines[0], who);
    forall i | 0 <= i < |jobTitles|
      ensures Includes(prompt, jobTitles[i])
    {
      JoinIncludes(jobTitles, ", ", i);
      IncludesInRight("Recent job titles: ", Join(jobTitles, ", "), jobTitles[i]);
      IncludesInLeft("Recent job titles: " + Join(jobTitles, ", "), ".", jobTitles[i]);
      IncludesTransitive(prompt, lines[1], jobTitles[i]);
    }
    forall i | 0 <= i < |skills|
      ensures Includes(prompt, skills[i])
    {
      JoinIncludes(skills, ", ", i);
      IncludesInRight("Key skills: ", Join(skills, ", "), skills[i]);
      IncludesInLeft("Key skills: " + Join(skills, ", "), ".", skills[i]);
      IncludesTransitive(prompt, lines[2], skills[i]);
    }
  }

  /** The bullet the job-description prompt asks for, as the source file spells it: the three
      characters "â€¢". */
  const BulletAsWritten := "\U{00E2}\U{20AC}\U{00A2}"
  /** The bullet evidently meant, "•". */
  const Bullet := "\U{2022}"

  const JobOpening := "Write 3-4 bullet points (as a single paragraph with bullet points separated by newlines) for a "
  const JobVerbs := "Each bullet should start with a strong action verb and include a quantifiable achievement where possible."
  const JobConcise := "Keep it concise - each bullet should be one line."

  /** The lines of the `generateJobDescription` prompt, with the format line asking for
      `bullet`. */
  function JobLines(jobTitle: string, company: string, bullet: string): (r: seq<string>)
    ensures |r| == 4
  {
    [ JobOpening + jobTitle + " position at " + OrElse(company, "a company") + ". ",
      JobVerbs,
      JobConcise,
      "Format: Start each line with \"" + bullet + " \"" ]
  }

  /** `generateJobDescription`'s prompt as the source file has it. */
  function JobPromptAsWritten(jobTitle: string, company: string): string {
    Join(JobLines(jobTitle, company, BulletAsWritten), NewLine)
  }

  /** `generateJobDescription`'s prompt with the bullet it evidently means. */
  function JobDescriptionPrompt(jobTitle: string, company: string): string {
    Join(JobLines(jobTitle, company, Bullet), NewLine)
  }

  /** Whatever bullet its format line asks for, the job-description prompt names the job
      title, and the company or "a company" when it is empty, and asks for that bullet. */
  lemma JobLinesMention(jobTitle: string, company: string, bullet: string)
    ensures Includes(Join(JobLines(jobTitle, company, bullet), NewLine), jobTitle)
    ensures Includes(Join(JobLines(jobTitle, company, bullet), NewLine), OrElse(company, "a company"))
    ensures Includes(Join(JobLines(jobTitle, company, bullet), NewLine), "\"" + bullet + " ")
  {
    var lines := JobLines(jobTitle, company, bullet);
    var at := OrElse(company, "a company");
    var tail := " position at " + at + ". ";
    assert lines[0] == JobOpening + jobTitle + tail;
    IncludesWithin(jobTitle, JobOpening, tail, lines[0]);
    IncludedViaLine(lines, 0, jobTitle);
    IncludesWithin(at, JobOpening + jobTitle + " position at ", ". ", lines[0]);
    IncludedViaLine(lines, 0, at);
    IncludesWithin("\"" + bullet + " ", "Format: Start each line with ", "\"", lines[3]);
    IncludedViaLine(lines, 3, "\"" + bullet + " ");
  }

  /** The prompt `generateJobDescription` sends, as written and as corrected, names the job
      title, and the company or "a company" when it is empty; the corrected one asks for
      lines starting with "• ". */
  lemma JobPromptMentions(jobTitle: string, company: string)
    ensures Includes(JobPromptAsWritten(jobTitle, company), jobTitle)
    ensures Includes(JobPromptAsWritten(jobTitle, company), OrElse(company, "a company"))
    ensures Includes(JobDescriptionPrompt(jobTitle, company), jobTitle)
    ensures Includes(JobDescriptionPrompt(jobTitle, company), OrElse(company, "a company"))
    ensures Includes(JobDescriptionPrompt(jobTitle, company), "\"" + Bullet + " ")
  {
    JobLinesMention(jobTitle, company, BulletAsWritten);
    JobLinesMention(jobTitle, company, Bullet);
  }

  /** What one line of a prompt mentions, the prompt mentions. */
  lemma IncludedViaLine(lines: seq<string>, k: nat, s: string)
    requires k < |lines| && Includes(lines[k], s)
    ensures Includes(Join(lines, NewLine), s)
  {
    JoinIncludes(lines, NewLine, k);
    IncludesTransitive(Join(lines, NewLine), lines[k], s);
  }

  /** The lines of the `suggestSkills` prompt. */
  function SkillsLines(jobTitles: seq<string>, existingSkills: seq<string>): (r: seq<string>)
    ensures |r| == 3
    ensures r[1] == "" <==> |existingSkills| == 0
  {
    [ SkillsOpening + Join(jobTitles, ", ") + ".",
      if |existingSkills| > 0
      then "They already have: " + Join(existingSkills, ", ") + ". Suggest different ones."
      else "",
      SkillsClosing + ExampleAnswer ]
  }

  const SkillsOpening := "Suggest 5-8 relevant technical and soft skills for someone with these job titles: "
  const SkillsClosing := "Return ONLY a comma-separated list of skills, nothing else. Example: "

  const ExampleSkills := ["JavaScript", "React", "Project Management", "Communication"]
  /** The example answer the skills prompt gives, "JavaScript, React, Project Management,
      Communication". */
  const ExampleAnswer := Join(ExampleSkills, ", ")

  function SkillsPrompt(jobTitles: seq<string>, existingSkills: seq<string>): string {
    Join(SkillsLines(jobTitles, existingSkills), NewLine)
  }

  /** The skills prompt mentions every job title and every existing skill. */
  lemma SkillsPromptMentions(jobTitles: seq<string>, existingSkills: seq<string>)
    ensures forall i :: 0 <= i < |jobTitles| ==> Includes(SkillsPrompt(jobTitles, existingSkills), jobTitles[i])
    ensures forall i :: 0 <= i < |existingSkills| ==> Includes(SkillsPrompt(jobTitles, existingSkills), existingSkills[i])
  {
    var lines := SkillsLines(jobTitles, existingSkills);
    var prompt := SkillsPrompt(jobTitles, existingSkills);
    assert lines == [lines[0], lines[1], lines[2]];
    JoinIncludes(lines, NewLine, 0);
    JoinIncludes(lines, NewLine, 1);
    var head := SkillsOpening;
    forall i | 0 <= i < |jobTitles|
      ensures Includes(prompt, jobTitles[i])
    {
      JoinIncludes(jobTitles, ", ", i);
      IncludesInRight(head, Join(jobTitles, ", "), jobTitles[i]);
      IncludesInLeft(head + Join(jobTitles, ", "), ".", jobTitles[i]);
      IncludesTransitive(prompt, lines[0], jobTitles[i]);
    }
    forall i | 0 <= i < |existingSkills|
      ensures Includes(prompt, existingSkills[i])
    {
      JoinIncludes(existingSkills, ", ", i);
      IncludesInRight("They already have: ", Join(existingSkills, ", "), existingSkills[i]);
      IncludesInLeft("They already have: " + Join(existingSkills, ", "), ". Suggest different ones.", existingSkills[i]);
      IncludesTransitive(prompt, lines[1], existingSkills[i]);
    }
  }

  /** `text.split(",").map(s => s.trim()).filter(Boolean)`. */
  function ParseSkillList(text: string): (r: seq<string>)
    ensures |r| <= Commas(text) + 1
    ensures forall i :: 0 <= i < |r| ==> r[i] != "" && IsTrimmed(r[i])
  {
    var pieces := Seqs.Map(Split(text), Trim);
    Seqs.MapAt(Split(text), Trim);
    Seqs.Filter(pieces, IsNonEmpty)
  }

  /** The pieces before and after a comma parse independently and in order. */
  lemma ParseSkillListPiece(a: string, rest: string)
    requires ',' !in a
    ensures ParseSkillList(a + "," + rest) == ParseSkillList(a) + ParseSkillList(rest)
  {
    SplitPiece(a, rest);
    SplitCommaFree(a);
    Seqs.MapAppend([a], Split(rest), Trim);
    Seqs.FilterAppend([Trim(a)], Seqs.Map(Split(rest), Trim), IsNonEmpty);
  }

  /** A skill with whitespace before it parses to the skill itself. */
  lemma ParseSkillListOne(pre: string, skill: string)
    requires AllWhitespace(pre) && IsTrimmed(skill) && skill != "" && ',' !in skill
    ensures ParseSkillList(pre + skill) == [skill]
  {
    assert ',' !in pre + skill by {
      assert forall k :: 0 <= k < |pre| ==> IsWhitespace(pre[k]);
      assert !IsWhitespace(',');
      assert forall k :: 0 <= k < |pre + skill| ==> (pre + skill)[k] != ',' by {
        forall k | 0 <= k < |pre + skill|
          ensures (pre + skill)[k] != ','
        {
          if k < |pre| {
            assert IsWhitespace(pre[k]);
          } else {
            assert (pre + skill)[k] == skill[k - |pre|];
          }
        }
      }
    }
    SplitCommaFree(pre + skill);
    TrimPadded(pre, skill, "");
    assert pre + skill + "" == pre + skill;
  }

  /** Parsing a list the model wrote as the prompt asks, skills joined by ", ", gives back
      the skills: for non-empty, trimmed, comma-free skills the parse undoes the join. */
  lemma {:induction false} ParseJoinedSkills(pre: string, skills: seq<string>)
    requires AllWhitespace(pre)
    requires |skills| >= 1
    requires forall i :: 0 <= i < |skills| ==> skills[i] != "" && IsTrimmed(skills[i]) && ',' !in skills[i]
    ensures ParseSkillList(pre + Join(skills, ", ")) == skills
    decreases |skills|
  {
    if |skills| == 1 {
      ParseSkillListOne(pre, skills[0]);
    } else {
      var rest := Join(skills[1..], ", ");
      SplitAfterFirst(pre, skills[0], rest);
      assert Join(skills, ", ") == skills[0] + ", " + rest;
      ParseSkillListOneComma(pre, skills[0]);
      ParseSkillListPiece(pre + skills[0], " " + rest);
      ParseSkillListOne(pre, skills[0]);
      assert AllWhitespace(" ");
      ParseJoinedSkills(" ", skills[1..]);
      assert [skills[0]] + skills[1..] == skills;
    }
  }

  /** The text after the first skill's comma starts with the separator's space. */
  lemma SplitAfterFirst(pre: string, first: string, rest: string)
    ensures pre + (first + ", " + rest) == (pre + first) + "," + (" " + rest)
  {
  }

  lemma ParseSkillListOneComma(pre: string, skill: string)
    requires AllWhitespace(pre) && ',' !in skill
    ensures ',' !in pre + skill
  {
    forall k | 0 <= k < |pre + skill|
      ensures (pre + skill)[k] != ','
    {
      if k < |pre| {
        assert IsWhitespace(pre[k]);
      } else {
        assert (pre + skill)[k] == skill[k - |pre|];
      }
    }
  }

  /** The prompt's own example answer parses to its four skills. */
  lemma ExampleAnswerParses()
    ensures ParseSkillList(ExampleAnswer) == ExampleSkills
  {
    assert AllWhitespace("");
    forall i | 0 <= i < |ExampleSkills|
      ensures ExampleSkills[i] != "" && IsTrimmed(ExampleSkills[i]) && ',' !in ExampleSkills[i]
    {
    }
    ParseJoinedSkills("", ExampleSkills);
    assert "" + ExampleAnswer == ExampleAnswer;
  }

  /** The UTF-8 encoding of a character, as byte values. */
  function Utf8(c: char): (r: seq<int>)
    ensures 1 <= |r| <= 4
    ensures forall i :: 0 <= i < |r| ==> 0 <= r[i] < 256
  {
    var n := c as int;
    if n < 0x80 then [n]
    else if n < 0x800 then [0xC0 + n / 0x40, 0x80 + n % 0x40]
    else if n < 0x10000 then [0xE0 + n / 0x1000, 0x80 + (n / 0x40) % 0x40, 0x80 + n % 0x40]
    else [0xF0 + n / 0x40000, 0x80 + (n / 0x1000) % 0x40, 0x80 + (n / 0x40) % 0x40, 0x80 + n % 0x40]
  }

  function Utf8String(s: string): (r: seq<int>)
    ensures forall i :: 0 <= i < |r| ==> 0 <= r[i] < 256
  {
    if s == [] then [] else Utf8(s[0]) + Utf8String(s[1..])
  }

  /** The character a byte stands for in Windows-1252; five byte values are unassigned. */
  function Cp1252(b: int): Option<char>
    requires 0 <= b < 256
  {
    if b < 0x80 || b >= 0xA0 then Some(b as char)
    else
      match b
      case 0x80 => Some('\U{20AC}')
      case 0x82 => Some('\U{201A}')
      case 0x83 => Some('\U{0192}')
      case 0x84 => Some('\U{201E}')
      case 0x85 => Some('\U{2026}')
      case 0x86 => Some('\U{2020}')
      case 0x87 => Some('\U{2021}')
      case 0x88 => Some('\U{02C6}')
      case 0x89 => Some('\U{2030}')
      case 0x8A => Some('\U{0160}')
      case 0x8B => Some('\U{2039}')
      case 0x8C => Some('\U{0152}')
      case 0x8E => Some('\U{017D}')
      case 0x91 => Some('\U{2018}')
      case 0x92 => Some('\U{2019}')
      case 0x93 => Some('\U{201C}')
      case 0x94 => Some('\U{201D}')
      case 0x95 => Some('\U{2022}')
      case 0x96 => Some('\U{2013}')
      case 0x97 => Some('\U{2014}')
      case 0x98 => Some('\U{02DC}')
      case 0x99 => Some('\U{2122}')
      case 0x9A => Some('\U{0161}')
      case 0x9B => Some('\U{203A}')
      case 0x9C => Some('\U{0153}')
      case 0x9E => Some('\U{017E}')
      case 0x9F => Some('\U{0178}')
      case _ => None
  }

  /** Bytes read back as Windows-1252 text, when every byte is assigned. */
  function Cp1252Decode(bytes: seq<int>): Option<string>
    requires forall i :: 0 <= i < |bytes| ==> 0 <= bytes[i] < 256
  {
    if bytes == [] then Some([])
    else
      match Cp1252(bytes[0])
      case None => None
      case Some(c) =>
        match Cp1252Decode(bytes[1..])
        case None => None
        case Some(rest) => Some([c] + rest)
  }

  /** The bullet in the source file is "•" saved as UTF-8 and read back as Windows-1252. */
  lemma BulletAsWrittenIsMisreadBullet()
    ensures Utf8String(Bullet) == [0xE2, 0x80, 0xA2]
    ensures Cp1252Decode(Utf8String(Bullet)) == Some(BulletAsWritten)
  {
    assert Utf8(Bullet[0]) == [0xE2, 0x80, 0xA2];
    assert Bullet[1..] == [];
    assert Utf8String(Bullet) == [0xE2, 0x80, 0xA2] + [];
    var empty: string := [];
    var bytes := [0xE2, 0x80, 0xA2];
    assert bytes[1..] == [0x80, 0xA2];
    assert bytes[1..][1..] == [0xA2];
    assert bytes[1..][1..][1..] == [];
    assert [0x80, 0xA2][1..] == [0xA2];
    assert [0xA2][1..] == [];
    assert Cp1252(0xA2) == Some('\U{00A2}');
    assert Cp1252(0x80) == Some('\U{20AC}');
    assert Cp1252(0xE2) == Some('\U{00E2}');
    assert ['\U{00A2}'] + empty == ['\U{00A2}'];
    assert Cp1252Decode([0xA2]) == Some(['\U{00A2}']);
    assert Cp1252Decode([0x80, 0xA2]) == Some(['\U{20AC}'] + ['\U{00A2}']);
    assert ['\U{00E2}'] + (['\U{20AC}'] + ['\U{00A2}']) == BulletAsWritten;
  }

  /** As written, the job-description prompt asks for lines starting with that three-character
      sequence, and never for "•". */
  lemma JobPromptAsWrittenAsksForMisreadBullet(jobTitle: string, company: string)
    ensures Includes(JobPromptAsWritten(jobTitle, company), "\"" + BulletAsWritten + " ")
    ensures JobPromptAsWritten(jobTitle, company) != JobDescriptionPrompt(jobTitle, company)
  {
    var lines := JobLines(jobTitle, company, BulletAsWritten);
    var prompt := JobPromptAsWritten(jobTitle, company);
    LinesIncluded(lines[0], lines[1], lines[2], lines[3]);
    assert lines == [lines[0], lines[1], lines[2], lines[3]];
    IncludesWithin("\"" + BulletAsWritten + " ", "Format: Start each line with ", "\"", lines[3]);
    IncludesTransitive(prompt, lines[3], "\"" + BulletAsWritten + " ");
    var fixed := JobLines(jobTitle, company, Bullet);
    JoinFour(lines[0], lines[1], lines[2], lines[3], NewLine);
    JoinFour(fixed[0], fixed[1], fixed[2], fixed[3], NewLine);
    assert |prompt| == |JobDescriptionPrompt(jobTitle, company)| + 2;
  }
}
