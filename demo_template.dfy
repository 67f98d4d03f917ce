/**
 * The fixed text of the demo page and stylesheet of `generateDemoWebsite`,
 * cut at every place where a value is spliced in or a block is switched
 * on or off. Each constant is the exact text between two such places.
 */
module DemoTemplate {

  const HtmlOpen: string :=
    "\n    <div class=\"website-container\">\n      "

  const HtmlBeforeHero: string :=
    "\n      \n      <main class=\"main-content\">\n        <section class=\"hero\">\n          "

  const HtmlBeforeTitle: string :=
    "\n          <div class=\"hero-content\">\n            <h1>"

  const HtmlBeforeDescription: string :=
    "</h1>\n            <p class=\"hero-description\">"

  const HtmlAfterDescription: string :=
    "</p>\n            <button class=\"cta-button\">Get Started</button>\n          </div>\n        </section>\n        \n        <section class=\"features\">\n          <div class=\"container\">\n            <h2>Our Features</h2>\n            <div class=\"feature-grid\">\n              <div class=\"feature-card\">\n                <h3>Professional Design</h3>\n                <p>Modern and clean design that reflects your brand perfectly.</p>\n              </div>\n              <div class=\"feature-card\">\n                <h3>Responsive Layout</h3>\n                <p>Looks great on all devices - desktop, tablet, and mobile.</p>\n              </div>\n              <div class=\"feature-card\">\n                <h3>Fast Performance</h3>\n                <p>Optimized for speed and excellent user experience.</p>\n              </div>\n            </div>\n          </div>\n        </section>\n\n        "

  const HtmlBetweenGalleryAndContact: string :=
    "\n\n        "

  const HtmlAfterMain: string :=
    "\n      </main>\n      \n      "

  const HtmlClose: string :=
    "\n    </div>\n  "

  const NavOpen: string :=
    "\n        <nav class=\"main-nav\">\n          <div class=\"nav-brand\">"

  const NavBeforeLinks: string :=
    "</div>\n          <ul class=\"nav-menu\">\n            "

  const NavClose: string :=
    "\n          </ul>\n        </nav>\n      "

  const LinkOpen: string :=
    "<li><a href=\"#"

  const LinkMiddle: string :=
    "\">"

  const LinkClose: string :=
    "</a></li>"

  const HeroImageOpen: string :=
    "\n            <div class=\"hero-image\">\n              <img src=\""

  const HeroImageClose: string :=
    "\" alt=\"Hero image\" />\n            </div>\n          "

  const ContactSection: string :=
    "\n          <section class=\"contact\">\n            <div class=\"container\">\n              <h2>Contact Us</h2>\n              <form class=\"contact-form\">\n                <input type=\"text\" placeholder=\"Your Name\" required>\n                <input type=\"email\" placeholder=\"Your Email\" required>\n                <textarea placeholder=\"Your Message\" required></textarea>\n                <button type=\"submit\">Send Message</button>\n              </form>\n            </div>\n          </section>\n        "

  const FooterOpen: string :=
    "\n        <footer class=\"main-footer\">\n          <div class=\"container\">\n            <div class=\"footer-content\">\n              <div class=\"footer-section\">\n                <h3>"

  const FooterBeforeLinks: string :=
    "</h3>\n                <p>Thank you for visiting our website. We look forward to working with you.</p>\n              </div>\n              <div class=\"footer-section\">\n                <h4>Quick Links</h4>\n                <ul>\n                  "

  const FooterBeforeEmail: string :=
    "\n                </ul>\n              </div>\n              <div class=\"footer-section\">\n                <h4>Contact Info</h4>\n                <p>Email: info@"

  const FooterAfterEmail: string :=
    ".com</p>\n                <p>Phone: (555) 123-4567</p>\n              </div>\n            </div>\n            <div class=\"footer-bottom\">\n              <p>&copy; 2024 "

  const FooterClose: string :=
    ". All rights reserved.</p>\n            </div>\n          </div>\n        </footer>\n      "

  const GalleryOpen: string :=
    "\n    <section class=\"image-gallery\">\n      <div class=\"container\">\n        <h2>Gallery</h2>\n        <div class=\"gallery-grid\">\n          "

  const GalleryClose: string :=
    "\n        </div>\n      </div>\n    </section>\n  "

  const GalleryItemOpen: string :=
    "\n            <div class=\"gallery-item\">\n              <img src=\""

  const GalleryItemMiddle: string :=
    "\" alt=\"Gallery image "

  const GalleryItemClose: string :=
    "\" loading=\"lazy\" />\n            </div>\n          "

  const CssBeforeNavGradient: string :=
    "\n    * {\n      margin: 0;\n      padding: 0;\n      box-sizing: border-box;\n    }\n\n    body {\n      font-family: 'Segoe UI', Tahoma, Geneva, Verdana, sans-serif;\n      line-height: 1.6;\n      color: #333;\n    }\n\n    .website-container {\n      min-height: 100vh;\n      display: flex;\n      flex-direction: column;\n    }\n\n    .main-nav {\n      background: "

  const CssBetweenGradients: string :=
    ";\n      padding: 1rem 2rem;\n      display: flex;\n      justify-content: space-between;\n      align-items: center;\n      color: white;\n    }\n\n    .nav-brand {\n      font-size: 1.5rem;\n      font-weight: bold;\n    }\n\n    .nav-menu {\n      display: flex;\n      list-style: none;\n      gap: 2rem;\n    }\n\n    .nav-menu a {\n      color: white;\n      text-decoration: none;\n      transition: opacity 0.3s;\n    }\n\n    .nav-menu a:hover {\n      opacity: 0.8;\n    }\n\n    .main-content {\n      flex: 1;\n    }\n\n    .hero {\n      background: "

  const CssBeforeHeroExtra: string :=
    ";\n      color: white;\n      text-align: center;\n      padding: 5rem 2rem;\n      position: relative;\n      "

  const CssBeforeFeatureColor: string :=
    "\n    }\n\n    .hero-image {\n      position: absolute;\n      top: 0;\n      left: 0;\n      right: 0;\n      bottom: 0;\n      z-index: 1;\n    }\n\n    .hero-image img {\n      width: 100%;\n      height: 100%;\n      object-fit: cover;\n      opacity: 0.3;\n    }\n\n    .hero-content {\n      position: relative;\n      z-index: 2;\n    }\n\n    .hero h1 {\n      font-size: 3rem;\n      margin-bottom: 1rem;\n    }\n\n    .hero-description {\n      font-size: 1.2rem;\n      margin-bottom: 2rem;\n      max-width: 600px;\n      margin-left: auto;\n      margin-right: auto;\n    }\n\n    .cta-button {\n      background: #ff6b6b;\n      color: white;\n      border: none;\n      padding: 1rem 2rem;\n      font-size: 1.1rem;\n      border-radius: 5px;\n      cursor: pointer;\n      transition: background 0.3s;\n    }\n\n    .cta-button:hover {\n      background: #ee5a5a;\n    }\n\n    .features {\n      padding: 5rem 2rem;\n      background: #f8f9fa;\n    }\n\n    .container {\n      max-width: 1200px;\n      margin: 0 auto;\n    }\n\n    .features h2 {\n      text-align: center;\n      margin-bottom: 3rem;\n      font-size: 2.5rem;\n    }\n\n    .feature-grid {\n      display: grid;\n      grid-template-columns: repeat(auto-fit, minmax(300px, 1fr));\n      gap: 2rem;\n    }\n\n    .feature-card {\n      background: white;\n      padding: 2rem;\n      border-radius: 10px;\n      box-shadow: 0 5px 15px rgba(0,0,0,0.1);\n      text-align: center;\n    }\n\n    .feature-card h3 {\n      margin-bottom: 1rem;\n      color: "

  const CssBeforeButtonColor: string :=
    ";\n    }\n\n    .image-gallery {\n      padding: 5rem 2rem;\n      background: #f8f9fa;\n    }\n\n    .image-gallery h2 {\n      text-align: center;\n      margin-bottom: 3rem;\n      font-size: 2.5rem;\n    }\n\n    .gallery-grid {\n      display: grid;\n      grid-template-columns: repeat(auto-fit, minmax(300px, 1fr));\n      gap: 2rem;\n    }\n\n    .gallery-item {\n      background: white;\n      border-radius: 10px;\n      overflow: hidden;\n      box-shadow: 0 5px 15px rgba(0,0,0,0.1);\n    }\n\n    .gallery-item img {\n      width: 100%;\n      height: 250px;\n      object-fit: cover;\n      transition: transform 0.3s ease;\n    }\n\n    .gallery-item:hover img {\n      transform: scale(1.05);\n    }\n\n    .contact {\n      padding: 5rem 2rem;\n    }\n\n    .contact h2 {\n      text-align: center;\n      margin-bottom: 3rem;\n      font-size: 2.5rem;\n    }\n\n    .contact-form {\n      max-width: 600px;\n      margin: 0 auto;\n      display: flex;\n      flex-direction: column;\n      gap: 1rem;\n    }\n\n    .contact-form input,\n    .contact-form textarea {\n      padding: 1rem;\n      border: 1px solid #ddd;\n      border-radius: 5px;\n      font-size: 1rem;\n    }\n\n    .contact-form textarea {\n      min-height: 120px;\n      resize: vertical;\n    }\n\n    .contact-form button {\n      background: "

  const CssBeforeHoverColor: string :=
    ";\n      color: white;\n      border: none;\n      padding: 1rem;\n      border-radius: 5px;\n      cursor: pointer;\n      font-size: 1rem;\n      transition: background 0.3s;\n    }\n\n    .contact-form button:hover {\n      background: "

  const CssBeforeMedia: string :=
    ";\n    }\n\n    .main-footer {\n      background: #2c3e50;\n      color: white;\n      padding: 3rem 2rem 1rem;\n    }\n\n    .footer-content {\n      display: grid;\n      grid-template-columns: repeat(auto-fit, minmax(250px, 1fr));\n      gap: 2rem;\n      margin-bottom: 2rem;\n    }\n\n    .footer-section h3,\n    .footer-section h4 {\n      margin-bottom: 1rem;\n    }\n\n    .footer-section ul {\n      list-style: none;\n    }\n\n    .footer-section ul li {\n      margin-bottom: 0.5rem;\n    }\n\n    .footer-section a {\n      color: #bdc3c7;\n      text-decoration: none;\n      transition: color 0.3s;\n    }\n\n    .footer-section a:hover {\n      color: white;\n    }\n\n    .footer-bottom {\n      border-top: 1px solid #34495e;\n      padding-top: 1rem;\n      text-align: center;\n      color: #bdc3c7;\n    }\n\n    "

  const CssClose: string :=
    "\n  "

  const CssHeroWithImage: string :=
    "min-height: 80vh; display: flex; align-items: center; justify-content: center;"

  const CssMediaBlock: string :=
    "\n    @media (max-width: 768px) {\n      .nav-menu {\n        display: none;\n      }\n      \n      .hero h1 {\n        font-size: 2rem;\n      }\n      \n      .hero-description {\n        font-size: 1rem;\n      }\n      \n      .feature-grid {\n        grid-template-columns: 1fr;\n      }\n    }\n    "

  const FooterContentPrefix: string :=
    "Professional footer with contact information and links for "

}
