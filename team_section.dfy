/**
 * The team section (storefront/src/components/team-section.tsx): the avatar fallback initials
 * and the social-link buttons of each member.
 */
module TeamSection {
  import opened Wrappers
  import Names

  datatype Social = Social(twitter: Option<string>, linkedin: Option<string>, github: Option<string>)

  datatype Member = Member(id: int, name: string, social: Social)

  datatype Network = Twitter | LinkedIn | GitHub

  /** A rendered social button: the network's icon and the link it opens. */
  datatype SocialButton = SocialButton(network: Network, href: string)

  function ProfileUrl(network: string, user: string): string
  {
    "https://" + network + ".com/" + user
  }

  function FullSocial(user: string): Social
  {
    Social(Some(ProfileUrl("twitter", user)), Some(ProfileUrl("linkedin", "in/" + user)), Some(ProfileUrl("github", user)))
  }

  function NoGithub(user: string): Social
  {
    Social(Some(ProfileUrl("twitter", user)), Some(ProfileUrl("linkedin", "in/" + user)), None)
  }

  const TeamMembers: seq<Member> := [
    Member(1, "Sarah Johnson", FullSocial("sarahj")),
    Member(2, "Michael Chen", FullSocial("michaelc")),
    Member(3, "Emily Rodriguez", NoGithub("emilyr")),
    Member(4, "David Kim", FullSocial("davidk")),
    Member(5, "Jessica Taylor", NoGithub("jessicat")),
    Member(6, "Alex Thompson", FullSocial("alext"))]

  /** `link && <Button/>`: a button for a present, non-empty link. */
  function ButtonIf(network: Network, link: Option<string>): (b: seq<SocialButton>)
    ensures |b| <= 1
  {
    if link.Some? && link.value != "" then [SocialButton(network, link.value)] else []
  }

  /** The buttons of one member, in the fixed order twitter, linkedin, github. */
  function SocialButtons(s: Social): (buttons: seq<SocialButton>)
    ensures |buttons| <= 3
    ensures forall i, j :: 0 <= i < j < |buttons| ==> Order(buttons[i].network) < Order(buttons[j].network)
    ensures forall b :: b in buttons ==> Link(s, b.network) == Some(b.href) && b.href != ""
    ensures forall n :: (exists b :: b in buttons && b.network == n) <==> Link(s, n).Some? && Link(s, n).value != ""
  {
    ButtonIf(Twitter, s.twitter) + ButtonIf(LinkedIn, s.linkedin) + ButtonIf(GitHub, s.github)
  }

  function Order(n: Network): nat
  {
    match n
    case Twitter => 0
    case LinkedIn => 1
    case GitHub => 2
  }

  function Link(s: Social, n: Network): Option<string>
  {
    match n
    case Twitter => s.twitter
    case LinkedIn => s.linkedin
    case GitHub => s.github
  }

  /** The avatar fallback text. */
  function MemberInitials(m: Member): string
  {
    Names.Initials(m.name)
  }

  /** The ids, used as render keys, are distinct. */
  lemma IdsDistinct()
    ensures forall i, j :: 0 <= i < j < |TeamMembers| ==> TeamMembers[i].id != TeamMembers[j].id
  {
  }

  /** The two members without a GitHub link (ids 3 and 5) get two buttons, the others three. */
  lemma ButtonCounts()
    ensures forall i :: 0 <= i < |TeamMembers| ==>
      |SocialButtons(TeamMembers[i].social)| == if TeamMembers[i].id == 3 || TeamMembers[i].id == 5 then 2 else 3
  {
  }

  lemma InitialsOfMember(i: nat, first: string, last: string)
    requires i < |TeamMembers| && TeamMembers[i].name == first + " " + last
    requires Names.IsWord(first) && Names.IsWord(last)
    ensures MemberInitials(TeamMembers[i]) == [first[0], last[0]]
  {
    Names.InitialsOfFullName(first, last);
  }

  /** Every member's name has two words, so every member gets two-letter initials. */
  lemma TwoLetterInitials()
    ensures forall i :: 0 <= i < |TeamMembers| ==> |MemberInitials(TeamMembers[i])| == 2
  {
    TwoLetterInitialsLow();
    TwoLetterInitialsHigh();
  }

  /** The first three entries. */
  lemma TwoLetterInitialsLow()
    ensures forall i :: 0 <= i < 3 ==> |MemberInitials(TeamMembers[i])| == 2
  {
    forall i | 0 <= i < 3 ensures |MemberInitials(TeamMembers[i])| == 2 {
      if i == 0 {
        InitialsOfMember(0, "Sarah", "Johnson");
      } else if i == 1 {
        InitialsOfMember(1, "Michael", "Chen");
      } else {
        InitialsOfMember(2, "Emily", "Rodriguez");
      }
    }
  }

  /** The last three entries. */
  lemma TwoLetterInitialsHigh()
    ensures forall i :: 3 <= i < 6 ==> |MemberInitials(TeamMembers[i])| == 2
  {
    forall i | 3 <= i < 6 ensures |MemberInitials(TeamMembers[i])| == 2 {
      if i == 3 {
        InitialsOfMember(3, "David", "Kim");
      } else if i == 4 {
        InitialsOfMember(4, "Jessica", "Taylor");
      } else {
        InitialsOfMember(5, "Alex", "Thompson");
      }
    }
  }
}
